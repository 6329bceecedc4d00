/** The status of a task (src/bptl/utils/constants.py), shared by all engines. */
module Statuses {
  datatype Status = Initial | InProgress | Performed | Failed | Completed
}
