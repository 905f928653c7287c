/** The two ways the pool walks its idle list (`conns`, a stack whose top is
    the last element): GetConnection pops from the top until it meets a
    usable entry, and the reaper keeps only the usable entries, in order. */
module IdleList {
  import opened Wrappers
  import opened Config
  import opened Connection

  /** What popping stale entries leaves: the entries beneath the stop point,
      the usable entry found (if any) and how many stale entries were closed. */
  datatype Scan = Scan(rest: seq<LdapConn>, found: Option<LdapConn>, discarded: nat)

  /** GetConnection's reuse loop on the idle list. The result is the top-most
      usable entry with everything beneath it left in place, and every entry
      above it unusable and discarded; with no usable entry the list empties. */
  function ReuseScan(idle: seq<LdapConn>, config: LdapConfig, now: Time): (s: Scan)
    ensures |s.rest| + s.discarded + (if s.found.Some? then 1 else 0) == |idle|
    ensures s.rest == idle[..|s.rest|]
    ensures s.found.Some? ==> s.found.value == idle[|s.rest|] && Usable(s.found.value, config, now)
    ensures s.found.None? ==> s.rest == []
    ensures forall j :: |idle| - s.discarded <= j < |idle| ==> !Usable(idle[j], config, now)
    decreases |idle|
  {
    if idle == [] then Scan([], None, 0)
    else
      var top := idle[|idle| - 1];
      if Usable(top, config, now) then Scan(idle[..|idle| - 1], Some(top), 0)
      else
        var s := ReuseScan(idle[..|idle| - 1], config, now);
        s.(discarded := s.discarded + 1)
  }

  /** LIFO reuse: a connection just pushed back while usable is the very one
      the next scan at the same time returns, with nothing discarded. */
  lemma LastReleasedFirstReused(idle: seq<LdapConn>, c: LdapConn, config: LdapConfig, now: Time)
    requires Usable(c, config, now)
    ensures ReuseScan(idle + [c.(lastUsed := now)], config, now) == Scan(idle, Some(c.(lastUsed := now)), 0)
  {
    var pushed := idle + [c.(lastUsed := now)];
    assert pushed[..|pushed| - 1] == idle;
    UsableRefreshed(c, config, now);
  }

  /** The reaper's filter: the usable entries, in their original order. */
  function KeepUsable(idle: seq<LdapConn>, config: LdapConfig, now: Time): (r: seq<LdapConn>)
    decreases |idle|
  {
    if idle == [] then []
    else
      KeepUsable(idle[..|idle| - 1], config, now) +
      (if Usable(idle[|idle| - 1], config, now) then [idle[|idle| - 1]] else [])
  }

  /** The filter keeps exactly the usable entries and never grows the list. */
  lemma {:induction false} KeepUsableMembers(idle: seq<LdapConn>, config: LdapConfig, now: Time)
    ensures |KeepUsable(idle, config, now)| <= |idle|
    ensures forall c :: c in KeepUsable(idle, config, now) <==> c in idle && Usable(c, config, now)
    decreases |idle|
  {
    if idle != [] {
      var init := idle[..|idle| - 1];
      KeepUsableMembers(init, config, now);
      assert idle == init + [idle[|idle| - 1]];
    }
  }

  /** Order is preserved: filtering a concatenation concatenates the
      filtered parts. */
  lemma {:induction false} KeepUsableAppend(a: seq<LdapConn>, b: seq<LdapConn>, config: LdapConfig, now: Time)
    ensures KeepUsable(a + b, config, now) == KeepUsable(a, config, now) + KeepUsable(b, config, now)
    decreases |b|
  {
    if b == [] {
      assert a + b == a;
    } else {
      var binit := b[..|b| - 1];
      assert (a + b)[..|a + b| - 1] == a + binit;
      assert (a + b)[|a + b| - 1] == b[|b| - 1];
      KeepUsableAppend(a, binit, config, now);
    }
  }

  /** A list of usable entries is left exactly as it is. */
  lemma {:induction false} KeepUsableAllUsable(idle: seq<LdapConn>, config: LdapConfig, now: Time)
    requires forall j :: 0 <= j < |idle| ==> Usable(idle[j], config, now)
    ensures KeepUsable(idle, config, now) == idle
    decreases |idle|
  {
    if idle != [] {
      var init := idle[..|idle| - 1];
      KeepUsableAllUsable(init, config, now);
      assert idle == init + [idle[|idle| - 1]];
    }
  }

  /** An entry is removed only if it is unusable: the list is unchanged
      exactly when every entry is usable. */
  lemma {:induction false} KeepUsableShrinksIffStale(idle: seq<LdapConn>, config: LdapConfig, now: Time)
    ensures KeepUsable(idle, config, now) == idle <==> forall j :: 0 <= j < |idle| ==> Usable(idle[j], config, now)
  {
    KeepUsableMembers(idle, config, now);
    if forall j :: 0 <= j < |idle| ==> Usable(idle[j], config, now) {
      KeepUsableAllUsable(idle, config, now);
    }
  }

  /** A second sweep at the same time removes nothing more. */
  lemma KeepUsableIdempotent(idle: seq<LdapConn>, config: LdapConfig, now: Time)
    ensures KeepUsable(KeepUsable(idle, config, now), config, now) == KeepUsable(idle, config, now)
  {
    var r := KeepUsable(idle, config, now);
    KeepUsableMembers(idle, config, now);
    assert forall j :: 0 <= j < |r| ==> r[j] in r;
    KeepUsableAllUsable(r, config, now);
  }
}
