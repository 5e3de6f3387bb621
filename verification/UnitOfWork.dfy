/** The session lifecycle of `Database.session`: commit on success, roll back on any exception. */
module UnitOfWork {

  /** One session: `committed` is what every other session sees, `working` is this one's view. */
  class Session<S> {
    var committed: S
    var working: S

    constructor (initial: S)
      ensures committed == initial && working == initial
    {
      committed, working := initial, initial;
    }

    /** `session.commit()`. A failing commit publishes nothing and raises. */
    method Commit(fails: bool) returns (ok: bool)
      modifies this
      ensures ok == !fails
      ensures working == old(working)
      ensures committed == if ok then old(working) else old(committed)
    {
      ok := !fails;
      if ok {
        committed := working;
      }
    }

    method Rollback()
      modifies this
      ensures committed == old(committed) && working == old(committed)
    {
      working := committed;
    }

    /** The end of the `async with` block: `raised` says whether the body raised. */
    method Close(raised: bool, commitFails: bool) returns (ok: bool)
      modifies this
      ensures ok == (!raised && !commitFails)
      ensures committed == if ok then old(working) else old(committed)
      ensures working == committed
    {
      ok := false;
      if !raised {
        ok := Commit(commitFails);
      }
      if !ok {
        Rollback();
      }
    }
  }
}
