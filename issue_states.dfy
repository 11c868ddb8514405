/** Issue.State: the state shared by issues, milestones and pull requests. */
module IssueStates {
  datatype State = Open | Closed
}
