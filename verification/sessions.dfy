/**
 `ComputerRegistry`: the in-memory table from session id to SDK handle.

 A Python `dict` keeps its keys in insertion order, and `list_sessions`
 returns them in that order, so the table is a map together with the
 order in which its keys were first inserted.
 */
module Sessions {
  import opened Wrappers
  import opened Sdk
  import opened Errors

  const DefaultSession: string := "default"

  /** `session_id or self.default_session`: `None` and `""` are both falsy. */
  function Normalize(sid: Option<string>): (k: string)
    ensures k != ""
    ensures sid == None || sid == Some("") ==> k == DefaultSession
    ensures sid.Some? && sid.value != "" ==> k == sid.value
  {
    match sid
    case Some(s) => if s == "" then DefaultSession else s
    case None => DefaultSession
  }

  datatype Registry = Registry(handles: map<string, Handle>, order: seq<string>)

  ghost predicate Distinct(s: seq<string>)
  {
    forall i, j :: 0 <= i < j < |s| ==> s[i] != s[j]
  }

  /** What every Python dict satisfies: each key once, in insertion order. */
  ghost predicate Valid(reg: Registry)
  {
    && Distinct(reg.order)
    && forall k :: k in reg.handles <==> k in reg.order
  }

  /** The table at start-up: `self.computers = {}`. */
  const Empty: Registry := Registry(map[], [])

  /** `s` with `k` taken out, the rest in the same order. */
  function Without(s: seq<string>, k: string): (r: seq<string>)
    ensures forall x :: x in r <==> x in s && x != k
    ensures k !in s ==> r == s
    ensures Distinct(s) ==> Distinct(r)
    ensures |r| <= |s|
  {
    if |s| == 0 then []
    else if s[0] == k then Without(s[1..], k)
    else
      var rest := Without(s[1..], k);
      DistinctTail(s);
      DistinctCons(s[0], rest);
      [s[0]] + rest
  }

  lemma DistinctTail(s: seq<string>)
    requires |s| > 0
    ensures Distinct(s) ==> s[0] !in s[1..] && Distinct(s[1..])
  {
    if Distinct(s) {
      forall j | 0 <= j < |s| - 1
        ensures s[1..][j] != s[0]
      {
        assert s[1..][j] == s[j + 1];
      }
    }
  }

  lemma DistinctCons(x: string, r: seq<string>)
    ensures x !in r && Distinct(r) ==> Distinct([x] + r)
  {
  }

  lemma {:induction false} DistinctCardinality(s: seq<string>)
    requires Distinct(s)
    ensures |set x | x in s| == |s|
  {
    if |s| > 0 {
      var rest := s[1..];
      DistinctCardinality(rest);
      assert (set x | x in s) == (set x | x in rest) + {s[0]};
      DistinctTail(s);
    }
  }

  /** `get`: the handle under the normalised key, or a lookup error naming it. */
  function Get(reg: Registry, sid: Option<string>): (r: Result<Handle, Error>)
    ensures r.Success? <==> Normalize(sid) in reg.handles
    ensures r.Success? ==> r.value == reg.handles[Normalize(sid)]
    ensures r.Failure? ==> r.error == NoComputer(Normalize(sid))
  {
    var k := Normalize(sid);
    if k in reg.handles then Success(reg.handles[k]) else Failure(NoComputer(k))
  }

  /** `add`: stores `h` under the normalised key, which it returns. */
  function Add(reg: Registry, h: Handle, sid: Option<string>): (p: (Registry, string))
    requires Valid(reg)
    ensures p.1 == Normalize(sid)
    ensures Valid(p.0)
    ensures p.1 in p.0.handles && p.0.handles[p.1] == h
    ensures forall k :: k != p.1 ==> (k in p.0.handles <==> k in reg.handles)
    ensures forall k :: k != p.1 && k in reg.handles ==> p.0.handles[k] == reg.handles[k]
    ensures p.1 in reg.handles ==> p.0.order == reg.order
    ensures p.1 !in reg.handles ==> p.0.order == reg.order + [p.1]
  {
    var k := Normalize(sid);
    var order := if k in reg.handles then reg.order else reg.order + [k];
    (Registry(reg.handles[k := h], order), k)
  }

  /** `remove`: pops the normalised key and returns `bool()` of what was popped. */
  function Remove(reg: Registry, sid: Option<string>): (p: (Registry, bool))
    requires Valid(reg)
    ensures Valid(p.0)
    ensures Normalize(sid) !in p.0.handles
    ensures forall k :: k != Normalize(sid) ==> (k in p.0.handles <==> k in reg.handles)
    ensures forall k :: k != Normalize(sid) && k in reg.handles ==> p.0.handles[k] == reg.handles[k]
    ensures Normalize(sid) !in reg.handles ==> p == (reg, false)
    ensures Normalize(sid) in reg.handles ==> p.1 == reg.handles[Normalize(sid)].truthy
  {
    var k := Normalize(sid);
    assert k !in reg.handles ==> reg.handles - {k} == reg.handles;
    (Registry(reg.handles - {k}, Without(reg.order, k)), k in reg.handles && reg.handles[k].truthy)
  }

  /** `list_sessions`: every registered key once, in insertion order. */
  function ListSessions(reg: Registry): (ids: seq<string>)
    requires Valid(reg)
    ensures Distinct(ids)
    ensures forall k :: k in ids <==> k in reg.handles
    ensures |ids| == |reg.handles|
  {
    DistinctCardinality(reg.order);
    assert reg.handles.Keys == set x | x in reg.order;
    reg.order
  }

  /**
   `list_sessions` follows insertion order: a new session is listed last,
   and overwriting an existing one does not move it.
   */
  lemma ListAfterAdd(reg: Registry, h: Handle, sid: Option<string>)
    requires Valid(reg)
    ensures Normalize(sid) !in reg.handles ==>
              ListSessions(Add(reg, h, sid).0) == ListSessions(reg) + [Normalize(sid)]
    ensures Normalize(sid) in reg.handles ==>
              ListSessions(Add(reg, h, sid).0) == ListSessions(reg)
  {
  }

  /** `remove` drops the session from the listing and keeps the others in order. */
  lemma {:induction false} ListAfterRemove(reg: Registry, sid: Option<string>, i: nat, j: nat)
    requires Valid(reg)
    requires i < j < |ListSessions(reg)|
    requires ListSessions(reg)[i] != Normalize(sid) && ListSessions(reg)[j] != Normalize(sid)
    ensures exists i', j' :: 0 <= i' < j' < |ListSessions(Remove(reg, sid).0)|
              && ListSessions(Remove(reg, sid).0)[i'] == ListSessions(reg)[i]
              && ListSessions(Remove(reg, sid).0)[j'] == ListSessions(reg)[j]
  {
    var after := Remove(reg, sid).0;
    assert ListSessions(reg) == reg.order;
    assert ListSessions(after) == after.order == Without(reg.order, Normalize(sid));
    WithoutKeepsOrder(reg.order, Normalize(sid), i, j);
  }

  lemma {:induction false} WithoutKeepsOrder(s: seq<string>, k: string, i: nat, j: nat)
    requires i < j < |s| && s[i] != k && s[j] != k
    ensures exists i', j' :: 0 <= i' < j' < |Without(s, k)| && Without(s, k)[i'] == s[i] && Without(s, k)[j'] == s[j]
    decreases |s|
  {
    var rest := Without(s[1..], k);
    if i == 0 {
      assert s[j] == s[1..][j - 1];
      assert s[j] in rest;
      var j'' :| 0 <= j'' < |rest| && rest[j''] == s[j];
      assert Without(s, k) == [s[0]] + rest;
      assert 0 < j'' + 1 < |Without(s, k)| && Without(s, k)[0] == s[i] && Without(s, k)[j'' + 1] == s[j];
    } else {
      WithoutKeepsOrder(s[1..], k, i - 1, j - 1);
      var i', j' :| 0 <= i' < j' < |rest| && rest[i'] == s[1..][i - 1] && rest[j'] == s[1..][j - 1];
      if s[0] == k {
        assert Without(s, k) == rest;
      } else {
        assert Without(s, k) == [s[0]] + rest;
        assert Without(s, k)[i' + 1] == rest[i'] && Without(s, k)[j' + 1] == rest[j'];
      }
    }
  }

  lemma NormalizeIdempotent(sid: Option<string>)
    ensures Normalize(Some(Normalize(sid))) == Normalize(sid)
  {
  }

  /** Last write wins, and no other session is affected. */
  lemma GetAfterAdd(reg: Registry, h: Handle, sid: Option<string>, other: Option<string>)
    requires Valid(reg)
    ensures Get(Add(reg, h, sid).0, other)
         == if Normalize(other) == Normalize(sid) then Success(h) else Get(reg, other)
  {
  }

  /** After `remove`, looking the session up fails with an error naming it. */
  lemma GetAfterRemove(reg: Registry, sid: Option<string>)
    requires Valid(reg)
    ensures Get(Remove(reg, sid).0, sid) == Failure(NoComputer(Normalize(sid)))
  {
  }

  /** Adding the same handle twice is the same as adding it once. */
  lemma AddIdempotent(reg: Registry, h: Handle, sid: Option<string>)
    requires Valid(reg)
    ensures Add(Add(reg, h, sid).0, h, sid) == Add(reg, h, sid)
  {
    var k := Normalize(sid);
    assert reg.handles[k := h][k := h] == reg.handles[k := h];
  }

  /** `remove` undoes an `add` of a session that was not registered. */
  lemma {:induction false} RemoveUndoesAdd(reg: Registry, h: Handle, sid: Option<string>)
    requires Valid(reg)
    requires Normalize(sid) !in reg.handles
    ensures Remove(Add(reg, h, sid).0, sid).0 == reg
  {
    var k := Normalize(sid);
    WithoutAppended(reg.order, k);
    assert reg.handles[k := h] - {k} == reg.handles;
  }

  lemma {:induction false} WithoutAppended(s: seq<string>, k: string)
    requires k !in s
    ensures Without(s + [k], k) == s
  {
    if |s| > 0 {
      assert (s + [k])[1..] == s[1..] + [k];
      WithoutAppended(s[1..], k);
    }
  }
}
