/**
 * Choosing the signing key: the validator reads `jwks["keys"]` from the
 * fetched key-set document and walks it in order, comparing each entry's
 * `kid` with the `kid` of the token's unverified header, and stops at the
 * first entry that compares equal.
 */
module KeySelection {
  import opened Wrappers
  import opened PyJson
  import opened PyErrors

  /**
   * The sequence the loop walks, or the error raised before or at its first
   * step. The debug line before the loop already calls `jwks.get("keys", [])`
   * and takes its `len`, so a document that is not a dict, and a `keys`
   * value with no length, raise there. A non-empty string or dict yields
   * strings, and the first of them raises when indexed with "kid".
   */
  function KeyEntries(jwks: Json): (r: Fallible<seq<Json>>)
    ensures r.Ok? <==> (jwks.JObj? && "keys" in jwks.members &&
                        (jwks.members["keys"].JArr? || jwks.members["keys"] == JStr("") || jwks.members["keys"] == JObj(map[])))
    ensures r.Ok? && jwks.members["keys"].JArr? ==> r.value == jwks.members["keys"].items
    ensures r.Ok? && !jwks.members["keys"].JArr? ==> r.value == []
    ensures !jwks.JObj? ==> r == Raises(NoAttribute(TypeName(jwks), "get"))
    ensures jwks.JObj? && "keys" !in jwks.members ==> r == Raises(KeyError("keys"))
    ensures jwks.JObj? && "keys" in jwks.members &&
            (jwks.members["keys"].JNull? || jwks.members["keys"].JBool? || jwks.members["keys"].JInt?) ==>
      r == Raises(NoLen(TypeName(jwks.members["keys"])))
    ensures jwks.JObj? && "keys" in jwks.members &&
            ((jwks.members["keys"].JStr? && jwks.members["keys"] != JStr("")) ||
             (jwks.members["keys"].JObj? && jwks.members["keys"] != JObj(map[]))) ==>
      r == Raises(NotSubscriptable("str"))
  {
    match jwks
    case JObj(doc) =>
      if "keys" !in doc then Raises(KeyError("keys"))
      else (
        match doc["keys"]
        case JArr(items) => Ok(items)
        case JStr(s) => if |s| == 0 then Ok([]) else Raises(NotSubscriptable("str"))
        case JObj(m) => if |m| == 0 then Ok([]) else Raises(NotSubscriptable("str"))
        case other => Raises(NoLen(TypeName(other))))
    case other => Raises(NoAttribute(TypeName(other), "get"))
  }

  /**
   * One step of the loop: `jwk["kid"] == header["kid"]`, evaluated left to
   * right, where `headerKid` is `header.get("kid")`.
   */
  function Probe(jwk: Json, headerKid: Option<Json>): (r: Fallible<bool>)
    ensures r.Ok? <==> jwk.JObj? && "kid" in jwk.members && headerKid.Some?
    ensures r == Ok(true) <==> jwk.JObj? && "kid" in jwk.members && headerKid.Some? && Equal(jwk.members["kid"], headerKid.value)
    ensures !jwk.JObj? ==> r == Raises(NotSubscriptable(TypeName(jwk)))
    ensures jwk.JObj? && ("kid" !in jwk.members || headerKid.None?) ==> r == Raises(KeyError("kid"))
  {
    match jwk
    case JObj(entry) =>
      if "kid" !in entry || headerKid.None? then Raises(KeyError("kid"))
      else Ok(Equal(entry["kid"], headerKid.value))
    case other => Raises(NotSubscriptable(TypeName(other)))
  }

  /** Where the walk ends: at a matching entry, off the end, or at an error. */
  datatype Selection = Found(index: nat) | NotFound | Failed(error: PyError)

  /** The walk from position `from` on. */
  function SelectFrom(keys: seq<Json>, headerKid: Option<Json>, from: nat): (r: Selection)
    requires from <= |keys|
    ensures r.Found? ==> from <= r.index < |keys| && Probe(keys[r.index], headerKid) == Ok(true)
    ensures r.Failed? ==> exists k :: from <= k < |keys| && Probe(keys[k], headerKid) == Raises(r.error)
    decreases |keys| - from
  {
    if from == |keys| then NotFound
    else
      match Probe(keys[from], headerKid)
      case Raises(e) => Failed(e)
      case Ok(equal) => if equal then Found(from) else SelectFrom(keys, headerKid, from + 1)
  }

  /** The whole walk, as the `for` loop at main.py:101 performs it. */
  function SelectKey(keys: seq<Json>, headerKid: Option<Json>): Selection
  {
    SelectFrom(keys, headerKid, 0)
  }

  /** Every entry before `i` was compared without error and did not match. */
  ghost predicate PassedBefore(keys: seq<Json>, headerKid: Option<Json>, from: nat, i: int)
    requires i <= |keys|
  {
    forall j :: from <= j < i ==> Probe(keys[j], headerKid) == Ok(false)
  }

  /** Entry `i` is the first entry whose `kid` equals the header's. */
  ghost predicate FirstMatch(keys: seq<Json>, headerKid: Option<Json>, i: int)
  {
    0 <= i < |keys| && Probe(keys[i], headerKid) == Ok(true) && PassedBefore(keys, headerKid, 0, i)
  }

  lemma {:induction false} SelectFromFound(keys: seq<Json>, headerKid: Option<Json>, from: nat, i: nat)
    requires from <= |keys|
    ensures SelectFrom(keys, headerKid, from) == Found(i) <==>
      from <= i < |keys| && Probe(keys[i], headerKid) == Ok(true) && PassedBefore(keys, headerKid, from, i)
    decreases |keys| - from
  {
    if from < |keys| {
      SelectFromFound(keys, headerKid, from + 1, i);
    }
  }

  /** The walk stops at entry `i` exactly when `i` is the first match. */
  lemma SelectKeyFindsFirstMatch(keys: seq<Json>, headerKid: Option<Json>, i: nat)
    ensures SelectKey(keys, headerKid) == Found(i) <==> FirstMatch(keys, headerKid, i)
  {
    SelectFromFound(keys, headerKid, 0, i);
  }

  lemma {:induction false} SelectFromNotFound(keys: seq<Json>, headerKid: Option<Json>, from: nat)
    requires from <= |keys|
    ensures SelectFrom(keys, headerKid, from) == NotFound <==> PassedBefore(keys, headerKid, from, |keys|)
    decreases |keys| - from
  {
    if from < |keys| {
      SelectFromNotFound(keys, headerKid, from + 1);
    }
  }

  /** The walk runs off the end exactly when every entry compared unequal. */
  lemma SelectKeyNotFound(keys: seq<Json>, headerKid: Option<Json>)
    ensures SelectKey(keys, headerKid) == NotFound <==> PassedBefore(keys, headerKid, 0, |keys|)
  {
    SelectFromNotFound(keys, headerKid, 0);
  }

  lemma {:induction false} SelectFromFailed(keys: seq<Json>, headerKid: Option<Json>, from: nat, i: int, e: PyError)
    requires from <= i < |keys| && Probe(keys[i], headerKid) == Raises(e)
    requires PassedBefore(keys, headerKid, from, i)
    ensures SelectFrom(keys, headerKid, from) == Failed(e)
    decreases |keys| - from
  {
    if from < i {
      SelectFromFailed(keys, headerKid, from + 1, i, e);
    }
  }

  /** An entry that raises ends the walk with that error if every entry before it compared unequal. */
  lemma SelectKeyFailsAtFirstError(keys: seq<Json>, headerKid: Option<Json>, i: int, e: PyError)
    requires 0 <= i < |keys| && Probe(keys[i], headerKid) == Raises(e)
    requires PassedBefore(keys, headerKid, 0, i)
    ensures SelectKey(keys, headerKid) == Failed(e)
  {
    SelectFromFailed(keys, headerKid, 0, i, e);
  }

  /** Entries after the first match, including later ones with the same `kid`, are never used. */
  lemma LaterEntriesIgnored(keys: seq<Json>, more: seq<Json>, headerKid: Option<Json>)
    requires SelectKey(keys, headerKid).Found?
    ensures SelectKey(keys + more, headerKid) == SelectKey(keys, headerKid)
  {
    var i := SelectKey(keys, headerKid).index;
    SelectKeyFindsFirstMatch(keys, headerKid, i);
    assert forall j :: 0 <= j <= i ==> (keys + more)[j] == keys[j];
    SelectKeyFindsFirstMatch(keys + more, headerKid, i);
  }

  /** The loop of main.py:100-105 without the import: the index of the entry chosen. */
  method FindKey(keys: seq<Json>, headerKid: Option<Json>) returns (r: Selection)
    ensures r == SelectKey(keys, headerKid)
    ensures r.Found? ==> FirstMatch(keys, headerKid, r.index)
  {
    var i := 0;
    while i < |keys|
      invariant 0 <= i <= |keys|
      invariant SelectKey(keys, headerKid) == SelectFrom(keys, headerKid, i)
    {
      var probe := Probe(keys[i], headerKid);
      if probe.Raises? {
        return Failed(probe.error);
      }
      if probe.value {
        r := Found(i);
        SelectKeyFindsFirstMatch(keys, headerKid, i);
        return;
      }
      i := i + 1;
    }
    return NotFound;
  }
}
