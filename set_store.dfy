/**
 * The persisted sets (`visited_videos.json`, `sent_summary_log.json`): a
 * file that holds a JSON array of strings, read back as a set.
 */
module SetStore {
  import opened Base

  /** What is on disk: no file, a file that does not parse as a list of strings, or the list. */
  datatype FileState = Missing | Unreadable | Stored(items: seq<string>)

  class JsonSetFile {
    var state: FileState
    /** How many times the file has been written. */
    var writes: nat

    constructor (initial: FileState)
      ensures state == initial && writes == 0
    {
      state := initial;
      writes := 0;
    }

    /**
     * `load_visited`: a missing file is the empty set, a stored list is the
     * set of its strings, and an unreadable file raises (it is not caught).
     */
    function LoadVisited(): (r: Result<set<string>>)
      reads this
      ensures r.Err? <==> state.Unreadable?
      ensures state.Missing? ==> r == Ok({})
      ensures state.Stored? ==> r.Ok? && forall x :: x in r.value <==> x in state.items
    {
      match state
      case Missing => Ok({})
      case Unreadable => Err(ServiceError)
      case Stored(items) => Ok(set x | x in items)
    }

    /**
     * `load_sent_log`: a missing or unreadable file is the empty set, a
     * stored list the set of its strings.
     */
    function LoadSentLog(): (r: set<string>)
      reads this
      ensures !state.Stored? ==> r == {}
      ensures state.Stored? ==> forall x :: x in r <==> x in state.items
    {
      if state.Stored? then set x | x in state.items else {}
    }

    /**
     * `save_visited` / `save_sent_log`: the file is replaced by the set
     * written out as a list without repetitions, so loading it again gives
     * the same set.
     */
    method Save(s: set<string>)
      modifies this
      ensures state.Stored? && NoDuplicates(state.items)
      ensures forall x :: x in state.items <==> x in s
      ensures writes == old(writes) + 1
      ensures LoadVisited() == Ok(s) && LoadSentLog() == s
    {
      var items := ListOf(s);
      state := Stored(items);
      writes := writes + 1;
      assert (set x | x in items) == s;
    }
  }
}
