/** The statuses a work item can have (engine/_state/schema.py). */
module WorkItems {
  datatype WorkStatus = Open | Fixed | AutoResolved | FalsePositive | Wontfix | Deferred | TriagedOut
}
