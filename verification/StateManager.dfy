/** Storing an alert and then publishing it, as one worker does it. */
module StateManager {
  import opened Models
  import R = Repository
  import B = EventBus

  /** `createFails` says whether the store reports an error; then nothing is published. */
  method ProcessAlert(repo: R.InMemoryAlertRepo, bus: B.EventBus, alert: AlertObject, createFails: bool)
    returns (created: bool)
    requires repo.Valid() && bus.Valid()
    modifies repo, repo.data, bus
    ensures repo.Valid() && bus.Valid() && created == !createFails
    ensures repo.alerts == if created then old(repo.alerts) + [alert] else old(repo.alerts)
    ensures bus.model == if created then B.AfterPublish(old(bus.model), alert.Snapshot()) else old(bus.model)
    ensures created ==> alert in repo.alerts && alert.Snapshot() in bus.model.published
  {
    if createFails {
      return false;
    }
    repo.Create(alert);
    bus.Publish(alert.Snapshot());
    return true;
  }
}
