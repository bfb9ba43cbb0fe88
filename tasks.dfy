/**
 * The task status as the shared task type admits it (lib/tasks.ts). The
 * repository spells "in progress" two ways: the dashboard uses "in-progress",
 * the task form uses "in_progress", and the shared type admits both. The model
 * keeps all four spellings as distinct values and never normalises them.
 */
module Tasks {
  import opened Wrappers

  datatype Status = Todo | InProgressHyphen | InProgressUnderscore | Done

  /** The string a status is stored and sent as. */
  function Spelling(s: Status): string {
    match s
    case Todo => "todo"
    case InProgressHyphen => "in-progress"
    case InProgressUnderscore => "in_progress"
    case Done => "done"
  }

  /**
   * The set of values the status union admits, written as a reader: exactly
   * the four strings of the union are statuses. The application itself never
   * checks a status at run time; this function and `ParseSpelling` only pin
   * down that the four spellings are distinct and are all there is.
   */
  function ParseStatus(text: string): (r: Option<Status>)
    ensures r.Some? ==> Spelling(r.value) == text
    ensures r.None? ==> forall s: Status :: Spelling(s) != text
  {
    if text == "todo" then Some(Todo)
    else if text == "in-progress" then Some(InProgressHyphen)
    else if text == "in_progress" then Some(InProgressUnderscore)
    else if text == "done" then Some(Done)
    else None
  }

  /** Every status survives being written out and read back. */
  lemma ParseSpelling(s: Status)
    ensures ParseStatus(Spelling(s)) == Some(s)
  {
  }
}
