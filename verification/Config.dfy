/** The kernel's build-time configuration, left open. */
module Config {

  type PriorityCount = n: nat | 1 <= n witness 1
  const PRIORITIES: PriorityCount

  /** The task-suspend feature: the largest wait is then a wait without a deadline. */
  const TASK_SUSPEND: bool
  /** The abort-delay feature. */
  const ABORT_DELAY: bool
  /** The tickless-idle feature. */
  const TICKLESS: bool
}
