/** The four lists of a task board. */
module BoardStatus {
  datatype Status = Todo | Doing | Done | Backlog
}
