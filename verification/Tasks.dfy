/** The units of work the collectors hand to the worker pool. */
module Tasks {
  import opened Collectors

  datatype Work =
    | PodEvent(pod: Pod)
    | NodeEvent(node: Node)
    | PodMetricsCheck
    | NodeMetricsCheck

  /** `serial` numbers the tasks in the order in which their events arrived. */
  datatype Task = Task(serial: nat, work: Work)
}
