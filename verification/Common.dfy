/** Types that several models share. */
module Common {

  datatype Option<T> = None | Some(value: T)

  /** How a write ends: reported as done, or reported as failed with or without effect. */
  datatype Write = Stored | FailedStored | FailedLost

  predicate Reaches(write: Write) {
    !write.FailedLost?
  }

  ghost predicate NoDup<T>(s: seq<T>) {
    forall i, j :: 0 <= i < j < |s| ==> s[i] != s[j]
  }
}
