/** WaitResult, the cell in which process.go lets several notification
    paths record an error or the upgrade information.  The mutex that guards
    it in Go only serialises the calls; the model takes them one at a time. */
module WaitResults {
  import opened Wrappers
  import opened Errors

  /** The upgrade information a watcher reports; its contents are opaque here. */
  datatype UpgradeInfo = UpgradeInfo(name: string, details: string)

  /** The two guarded fields, as AsResult reports them. */
  datatype Snapshot = Snapshot(info: Option<UpgradeInfo>, err: Option<Error>)

  /** What one SetError call does to the cell: a non-nil error is recorded,
      replacing any earlier one, until the upgrade information is set; after
      that, and for a nil error, nothing changes.  The info is never touched. */
  function AfterSetError(s: Snapshot, myErr: Option<Error>): (r: Snapshot)
    ensures r.info == s.info
    ensures s.info.Some? || myErr.None? ==> r == s
    ensures s.info.None? && myErr.Some? ==> r.err == myErr
  {
    if s.info.None? && myErr.Some? then Snapshot(s.info, myErr) else s
  }

  /** The cell after a sequence of SetError calls, in order. */
  function SetErrors(s: Snapshot, errs: seq<Option<Error>>): Snapshot
    decreases |errs|
  {
    if errs == [] then s else SetErrors(AfterSetError(s, errs[0]), errs[1..])
  }

  /** The last non-nil error of a sequence, None if they are all nil. */
  function LastError(errs: seq<Option<Error>>): (r: Option<Error>)
    ensures r.Some? ==> r in errs
    decreases |errs|
  {
    if errs == [] then None
    else if errs[|errs| - 1].Some? then errs[|errs| - 1]
    else LastError(errs[..|errs| - 1])
  }

  lemma {:induction false} SetErrorsAppend(s: Snapshot, errs: seq<Option<Error>>, e: Option<Error>)
    ensures SetErrors(s, errs + [e]) == AfterSetError(SetErrors(s, errs), e)
    decreases |errs|
  {
    if errs == [] {
      assert errs + [e] == [e];
    } else {
      assert (errs + [e])[1..] == errs[1..] + [e];
      SetErrorsAppend(AfterSetError(s, errs[0]), errs[1..], e);
    }
  }

  /** No sequence of SetError calls changes the upgrade information. */
  lemma {:induction false} SetErrorsKeepsInfo(s: Snapshot, errs: seq<Option<Error>>)
    ensures SetErrors(s, errs).info == s.info
    decreases |errs|
  {
    if errs != [] {
      SetErrorsKeepsInfo(AfterSetError(s, errs[0]), errs[1..]);
    }
  }

  /** Once the upgrade information is set, the error is frozen: any sequence
      of SetError calls leaves the cell exactly as it was. */
  lemma {:induction false} SetErrorsFrozen(s: Snapshot, errs: seq<Option<Error>>)
    requires s.info.Some?
    ensures SetErrors(s, errs) == s
    decreases |errs|
  {
    if errs != [] {
      SetErrorsFrozen(AfterSetError(s, errs[0]), errs[1..]);
    }
  }

  /** While the upgrade information is unset, the LAST non-nil error wins: a
      later error overwrites an earlier one, whatever the comment on SetError
      says about the first error. */
  lemma {:induction false} SetErrorsLastWins(s: Snapshot, errs: seq<Option<Error>>)
    requires s.info.None?
    ensures SetErrors(s, errs).err == if LastError(errs).Some? then LastError(errs) else s.err
    decreases |errs|
  {
    if errs != [] {
      var init, e := errs[..|errs| - 1], errs[|errs| - 1];
      assert errs == init + [e];
      SetErrorsAppend(s, init, e);
      SetErrorsKeepsInfo(s, init);
      SetErrorsLastWins(s, init);
    }
  }

  /** Two successive errors: the second replaces the first. */
  lemma SecondErrorOverwrites(a: Error, b: Error)
    ensures SetErrors(Snapshot(None, None), [Some(a), Some(b)]) == Snapshot(None, Some(b))
  {
    var first := AfterSetError(Snapshot(None, None), Some(a));
    assert first == Snapshot(None, Some(a));
    assert [Some(a), Some(b)][1..] == [Some(b)];
    assert SetErrors(first, [Some(b)]) == SetErrors(Snapshot(None, Some(b)), []);
  }

  /** The WaitResult struct: err and info, changed only through SetError. */
  class WaitResult {
    var err: Option<Error>
    var info: Option<UpgradeInfo>

    /** The fields as one value. */
    function State(): Snapshot
      reads this
    {
      Snapshot(info, err)
    }

    /** A composite literal `WaitResult{info: info, err: err}`; the zero
        value is `new WaitResult(None, None)`. */
    constructor (info: Option<UpgradeInfo>, err: Option<Error>)
      ensures this.info == info && this.err == err
    {
      this.info := info;
      this.err := err;
    }

    /** SetError: record a non-nil error unless the info is already set. */
    method SetError(myErr: Option<Error>)
      modifies this
      ensures State() == AfterSetError(old(State()), myErr)
      ensures info == old(info)
      ensures old(info).Some? || myErr.None? ==> err == old(err)
      ensures old(info).None? && myErr.Some? ==> err == myErr
    {
      if info.None? && myErr.Some? {
        err := myErr;
      }
    }

    /** AsResult: both fields, read without changing either. */
    method AsResult() returns (i: Option<UpgradeInfo>, e: Option<Error>)
      ensures i == info && e == err
    {
      i, e := info, err;
    }
  }
}
