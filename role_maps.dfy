/**
 * A Python `dict[CouncilRole, str]`: its items in insertion order. Assigning
 * to a key that is present replaces the value in place; a new key goes last.
 */
module RoleMaps {
  import opened Wrappers
  import opened Config

  /** One item of the dict. */
  datatype Entry = Entry(role: CouncilRole, text: string)

  /** The dict's items, in iteration (insertion) order. */
  type RoleMap = seq<Entry>

  /** `list(d.keys())` */
  function Keys(m: RoleMap): seq<CouncilRole> {
    if m == [] then [] else [m[0].role] + Keys(m[1..])
  }

  /** `list(d.values())` */
  function Values(m: RoleMap): seq<string> {
    if m == [] then [] else [m[0].text] + Values(m[1..])
  }

  /** `d.get(role)` */
  function Get(m: RoleMap, role: CouncilRole): Option<string> {
    if m == [] then None
    else if m[0].role == role then Some(m[0].text)
    else Get(m[1..], role)
  }

  /** A lookup finds a value exactly for the keys present. */
  lemma {:induction false} GetIffKey(m: RoleMap, role: CouncilRole)
    ensures Get(m, role).Some? <==> role in Keys(m)
  {
    if m != [] {
      GetIffKey(m[1..], role);
    }
  }

  /** `d.get(role, default)` */
  function GetOr(m: RoleMap, role: CouncilRole, default: string): string {
    match Get(m, role)
    case Some(t) => t
    case None => default
  }

  /** `d[role] = text` */
  function Put(m: RoleMap, role: CouncilRole, text: string): RoleMap
  {
    if m == [] then [Entry(role, text)]
    else if m[0].role == role then [Entry(role, text)] + m[1..]
    else [m[0]] + Put(m[1..], role, text)
  }

  /**
   * After `d[role] = text`, `role` holds `text` and every other key what it
   * held before; a present key keeps its place, a new one is appended.
   */
  lemma {:induction false} PutSpec(m: RoleMap, role: CouncilRole, text: string)
    ensures var r := Put(m, role, text);
      && Get(r, role) == Some(text)
      && (forall k :: k != role ==> Get(r, k) == Get(m, k))
      && (role in Keys(m) ==> Keys(r) == Keys(m) && |r| == |m|)
      && (role !in Keys(m) ==> Keys(r) == Keys(m) + [role] && r == m + [Entry(role, text)])
  {
    if m != [] && m[0].role != role {
      PutSpec(m[1..], role, text);
      var r := Put(m, role, text);
      assert r[1..] == Put(m[1..], role, text);
    }
  }

  /** Assigning each pair in turn, left to right, starting from `m`. */
  function PutAll(m: RoleMap, pairs: seq<Entry>): RoleMap {
    if pairs == [] then m
    else
      var last := pairs[|pairs| - 1];
      Put(PutAll(m, pairs[..|pairs| - 1]), last.role, last.text)
  }

  /** `dict(pairs)`, and the dict comprehension `{role: text for role, text in pairs}`. */
  function FromPairs(pairs: seq<Entry>): RoleMap {
    PutAll([], pairs)
  }

  /** The text of the last pair that carries `role`, if any. */
  function LastFor(pairs: seq<Entry>, role: CouncilRole): Option<string> {
    if pairs == [] then None
    else if pairs[|pairs| - 1].role == role then Some(pairs[|pairs| - 1].text)
    else LastFor(pairs[..|pairs| - 1], role)
  }

  /** The roles of a list of pairs, in order. */
  function RolesOf(pairs: seq<Entry>): seq<CouncilRole> {
    seq(|pairs|, i requires 0 <= i < |pairs| => pairs[i].role)
  }

  /** One more pair is one more assignment. */
  lemma FromPairsSnoc(pairs: seq<Entry>, e: Entry)
    ensures FromPairs(pairs + [e]) == Put(FromPairs(pairs), e.role, e.text)
  {
    assert (pairs + [e])[..|pairs|] == pairs;
  }

  /** In a dict built from pairs, each role holds the text of its LAST pair: later pairs overwrite. */
  lemma {:induction false} FromPairsGet(pairs: seq<Entry>, role: CouncilRole)
    ensures Get(FromPairs(pairs), role) == LastFor(pairs, role)
  {
    if pairs != [] {
      var init := pairs[..|pairs| - 1];
      var last := pairs[|pairs| - 1];
      FromPairsGet(init, role);
      PutSpec(FromPairs(init), last.role, last.text);
    }
  }

  /** The keys of a dict built from pairs are exactly the roles that occur in them. */
  lemma {:induction false} FromPairsKeys(pairs: seq<Entry>, role: CouncilRole)
    ensures role in Keys(FromPairs(pairs)) <==> role in RolesOf(pairs)
  {
    if pairs != [] {
      var init := pairs[..|pairs| - 1];
      FromPairsKeys(init, role);
      PutSpec(FromPairs(init), pairs[|pairs| - 1].role, pairs[|pairs| - 1].text);
      assert RolesOf(pairs) == RolesOf(init) + [pairs[|pairs| - 1].role];
    }
  }

  /** With pairwise distinct roles nothing is overwritten: the dict lists the pairs as given. */
  lemma {:induction false} FromPairsDistinct(pairs: seq<Entry>)
    requires forall i, j :: 0 <= i < j < |pairs| ==> pairs[i].role != pairs[j].role
    ensures FromPairs(pairs) == pairs
  {
    if pairs != [] {
      var init := pairs[..|pairs| - 1];
      var last := pairs[|pairs| - 1];
      FromPairsDistinct(init);
      FromPairsKeys(init, last.role);
      PutSpec(init, last.role, last.text);
      assert forall i :: 0 <= i < |init| ==> RolesOf(init)[i] == pairs[i].role;
      assert last.role !in RolesOf(init);
      assert pairs == init + [last];
    }
  }

  /** The values of a map, position by position. */
  lemma {:induction false} ValuesAt(m: RoleMap)
    ensures |Values(m)| == |m|
    ensures forall k :: 0 <= k < |m| ==> Values(m)[k] == m[k].text
  {
    if m != [] {
      ValuesAt(m[1..]);
    }
  }

  /** The pair at `k` is the last one for its role when no later pair carries that role. */
  lemma {:induction false} LastForAt(pairs: seq<Entry>, k: nat)
    requires k < |pairs|
    requires forall j :: k < j < |pairs| ==> pairs[j].role != pairs[k].role
    ensures LastFor(pairs, pairs[k].role) == Some(pairs[k].text)
  {
    if k < |pairs| - 1 {
      var init := pairs[..|pairs| - 1];
      LastForAt(init, k);
    }
  }
}
