/** Values that are overwritten from time to time. */
module Histories {
  import opened Text

  /** `v` is what the last entry of the log that wrote anything gave, or else the start. */
  ghost predicate LastWritten<T>(log: seq<Option<T>>, start: T, v: T) {
    || (v == start && forall j :: 0 <= j < |log| ==> log[j].None?)
    || (exists i :: 0 <= i < |log| && log[i] == Some(v) && forall j :: i < j < |log| ==> log[j].None?)
  }

  lemma OneMoreWrite<T>(log: seq<Option<T>>, start: T, v: T, w: Option<T>)
    requires LastWritten(log, start, v)
    ensures LastWritten(log + [w], start, if w.Some? then w.value else v)
  {
    var more := log + [w];
    if w.Some? {
      assert more[|log|] == w;
    } else if !(v == start && forall j :: 0 <= j < |log| ==> log[j].None?) {
      var i :| 0 <= i < |log| && log[i] == Some(v) && forall j :: i < j < |log| ==> log[j].None?;
      assert more[i] == Some(v);
    }
  }

  lemma LastIsUnique<T>(log: seq<Option<T>>, start: T, v: T, w: T)
    requires LastWritten(log, start, v) && LastWritten(log, start, w)
    ensures v == w
  {
    if exists i :: 0 <= i < |log| && log[i].Some? {
      var i :| 0 <= i < |log| && log[i] == Some(v) && forall j :: i < j < |log| ==> log[j].None?;
      var k :| 0 <= k < |log| && log[k] == Some(w) && forall j :: k < j < |log| ==> log[j].None?;
      assert i == k;
    }
  }
}
