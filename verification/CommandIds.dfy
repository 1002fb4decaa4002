/** The id space that clients and the interposer share. */
module CommandIds {
  import opened Common

  /** A command is identified by its session, if it names one, and its id. */
  type Key = (Option<string>, int)

  /** The first id at or below `start` that is free for the session. */
  function FreeId(session: string, start: int, used: set<Key>): (id: int)
    ensures id <= start && (Some(session), id) !in used
    ensures forall n :: id < n <= start ==> (Some(session), n) in used
    decreases |set key | key in used && key.1 <= start|
  {
    if (Some(session), start) !in used then start
    else
      StrictSubsetSize(set key | key in used && key.1 <= start - 1,
                       set key | key in used && key.1 <= start, (Some(session), start));
      FreeId(session, start - 1, used)
  }
}
