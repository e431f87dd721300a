/** Canonical ordering of advertised actions and the signature clients send back. */
module OrchestrationContracts {
  import opened Options
  import opened Strings
  import opened StableSort
  import Lex

  /** A value inside an action dictionary: JSON null, text, or a Decimal with its fixed-point digits. */
  datatype Value = Null | Text(text: string) | Dec(digits: string)

  type Action = map<string, Value>

  /** `_norm`: Decimals become their fixed-point text; key order is not observable on a map. */
  function NormValue(v: Value): Value {
    if v.Dec? then Text(v.digits) else v
  }

  function Norm(action: Action): Action {
    map k | k in action :: NormValue(action[k])
  }

  function NormAll(actions: seq<Action>): seq<Action> {
    seq(|actions|, i requires 0 <= i < |actions| => Norm(actions[i]))
  }

  function Str(v: Value): string {
    match v
    case Null => "None"
    case Text(s) => s
    case Dec(s) => s
  }

  function GetStr(action: Action, key: string): string {
    if key in action then Str(action[key]) else ""
  }

  predicate Has(action: Action, key: string) {
    key in action && action[key] != Null
  }

  /** `_stable_action_identifier`: the first identifier present, in the source's order of preference. */
  function StableIdentifier(action: Action): string {
    if Has(action, "tool_call_id") then Str(action["tool_call_id"])
    else if Has(action, "id") then Str(action["id"])
    else if Has(action, "target_id") then Str(action["target_id"])
    else if Has(action, "resource_id") then Str(action["resource_id"])
    else if Has(action, "reference_id") then Str(action["reference_id"])
    else ""
  }

  const RUN_LEVEL_PRIORITY := map["resume" := 10, "approve" := 20, "cancel" := 30, "handoff" := 40]

  datatype Rank = Number(n: int) | Name(s: string)

  /** The tuple Python sorts by; its middle component is an int or a string. */
  datatype SortKey = SortKey(group: int, rank: Rank, ident: string)

  function ActionSortKey(action: Action): SortKey {
    var name := Strip(GetStr(action, "action"));
    if name == "approve" && Has(action, "tool_call_id") then
      SortKey(0, Name(Str(action["tool_call_id"])), "")
    else if name in RUN_LEVEL_PRIORITY then
      SortKey(1, Number(RUN_LEVEL_PRIORITY[name]), StableIdentifier(action))
    else
      SortKey(2, Name(name), StableIdentifier(action))
  }

  predicate StrLess(s: string, t: string) { Lex.Less(Lex.Codes(s), Lex.Codes(t)) }

  /** Python's `<` on two sort keys; None is the TypeError of comparing an int with a string. */
  function PyLess(a: SortKey, b: SortKey): Option<bool> {
    if a.group != b.group then Some(a.group < b.group)
    else if a.rank == b.rank then Some(StrLess(a.ident, b.ident))
    else match (a.rank, b.rank)
      case (Number(m), Number(n)) => Some(m < n)
      case (Name(s), Name(t)) => Some(StrLess(s, t))
      case _ => None
  }

  predicate ActionLe(a: Action, b: Action) {
    PyLess(ActionSortKey(b), ActionSortKey(a)) == Some(false)
  }

  function Canonical(actions: seq<Action>): seq<Action> {
    Sort(NormAll(actions), ActionLe)
  }

  /** `canonicalize_valid_actions`: append each normalised action, then sort in place. */
  method CanonicalizeValidActions(validActions: seq<Action>) returns (normalized: seq<Action>)
    ensures normalized == Canonical(validActions)
  {
    normalized := [];
    for i := 0 to |validActions|
      invariant normalized == NormAll(validActions[..i])
    {
      normalized := normalized + [Norm(validActions[i])];
      assert validActions[..i + 1] == validActions[..i] + [validActions[i]];
    }
    assert validActions[..|validActions|] == validActions;
    normalized := Sort(normalized, ActionLe);
  }

  /** SHA-256 is taken as collision free: a digest is its preimage, any other text is not a digest. */
  datatype Signature = Sha256(version: int, ordered: seq<Action>) | OtherText(text: string)

  function ValidActionsSignature(version: int, validActions: seq<Action>): Signature {
    Sha256(version, Canonical(validActions))
  }

  // ---- ordering ----

  /** No two action keys make Python compare an int with a string. */
  lemma KeysCompare(a: Action, b: Action)
    ensures PyLess(ActionSortKey(a), ActionSortKey(b)).Some?
  {
  }

  lemma StrTotal(s: string, t: string)
    ensures StrLess(s, t) || s == t || StrLess(t, s)
    ensures StrLess(s, t) ==> s != t && !StrLess(t, s)
  {
    Lex.Trichotomy(Lex.Codes(s), Lex.Codes(t));
    if Lex.Codes(s) == Lex.Codes(t) { Lex.CodesInjective(s, t); }
  }

  lemma StrChain(s: string, t: string, u: string)
    requires !StrLess(t, s) && !StrLess(u, t)
    ensures !StrLess(u, s)
    ensures u == s ==> t == s
  {
    StrTotal(s, t);
    StrTotal(t, u);
    StrTotal(s, u);
    if s != t && t != u { Lex.LessTransitive(Lex.Codes(s), Lex.Codes(t), Lex.Codes(u)); }
  }

  lemma KeyChain(a: SortKey, b: SortKey, c: SortKey)
    requires PyLess(b, a) == Some(false) && PyLess(c, b) == Some(false) && PyLess(c, a).Some?
    ensures PyLess(c, a) == Some(false)
  {
    if a.group == b.group == c.group {
      if a.rank == b.rank == c.rank {
        StrChain(a.ident, b.ident, c.ident);
      } else if a.rank.Name? && b.rank.Name? && c.rank.Name? {
        StrTotal(a.rank.s, b.rank.s);
        StrTotal(b.rank.s, c.rank.s);
        StrChain(a.rank.s, b.rank.s, c.rank.s);
      }
    }
  }

  lemma ActionOrderIsTotal()
    ensures TotalPreorder(ActionLe)
  {
    forall a: Action, b: Action ensures ActionLe(a, b) || ActionLe(b, a) {
      var k, l := ActionSortKey(a), ActionSortKey(b);
      KeysCompare(a, b);
      KeysCompare(b, a);
      StrTotal(k.ident, l.ident);
      if k.rank.Name? && l.rank.Name? { StrTotal(k.rank.s, l.rank.s); }
    }
    forall a: Action, b: Action, c: Action ensures Chains(ActionLe, a, b, c) {
      KeysCompare(c, a);
      if ActionLe(a, b) && ActionLe(b, c) {
        KeyChain(ActionSortKey(a), ActionSortKey(b), ActionSortKey(c));
      }
    }
  }

  /** The canonical list is an ordered permutation of the normalised input. */
  lemma CanonicalIsSortedPermutation(actions: seq<Action>)
    ensures Sorted(Canonical(actions), ActionLe)
    ensures multiset(Canonical(actions)) == multiset(NormAll(actions))
  {
    ActionOrderIsTotal();
    SortIsSortedPermutation(NormAll(actions), ActionLe);
  }

  lemma NormTwice(actions: seq<Action>)
    requires forall a | a in actions :: Norm(a) == a
    ensures NormAll(actions) == actions
  {
  }

  lemma CanonicalIsNormal(actions: seq<Action>, a: Action)
    requires a in Canonical(actions)
    ensures Norm(a) == a
  {
    CanonicalIsSortedPermutation(actions);
    assert a in multiset(Canonical(actions));
    assert a in multiset(NormAll(actions));
    var i :| 0 <= i < |actions| && a == Norm(actions[i]);
  }

  /** Canonicalising twice changes nothing, so a signature over a canonical list is its own. */
  lemma CanonicalIsIdempotent(actions: seq<Action>)
    ensures Canonical(Canonical(actions)) == Canonical(actions)
  {
    var c := Canonical(actions);
    forall a | a in c ensures Norm(a) == a { CanonicalIsNormal(actions, a); }
    NormTwice(c);
    assert Sorted(c, ActionLe) by { CanonicalIsSortedPermutation(actions); }
    SortOfSorted(c, ActionLe);
  }

  lemma NormAllWithout(q: seq<Action>, j: nat)
    requires j < |q|
    ensures multiset(NormAll(q)) == multiset{Norm(q[j])} + multiset(NormAll(Without(q, j)))
  {
    var n := NormAll(q);
    assert NormAll(Without(q, j)) == n[..j] + n[j + 1..];
    assert n == n[..j] + [n[j]] + n[j + 1..];
  }

  lemma {:induction false} NormAllKeepsPermutations(p: seq<Action>, q: seq<Action>)
    requires multiset(p) == multiset(q)
    ensures multiset(NormAll(p)) == multiset(NormAll(q))
    decreases |p|
  {
    assert |p| == |multiset(p)| && |q| == |multiset(q)|;
    if p != [] {
      var j := MatchHead(p, q);
      NormAllKeepsPermutations(p[1..], Without(q, j));
      NormAllWithout(p, 0);
      NormAllWithout(q, j);
      assert Without(p, 0) == p[1..];
    }
  }

  /** Moving element `i` to the front puts its normal form first among its ties. */
  lemma FrontOfTies(actions: seq<Action>, i: nat) returns (p: seq<Action>)
    requires i < |actions|
    ensures multiset(p) == multiset(actions)
    ensures forall k | ActionLe(k, Norm(actions[i])) && ActionLe(Norm(actions[i]), k) ::
              |Ties(Canonical(p), k, ActionLe)| > 0 && Ties(Canonical(p), k, ActionLe)[0] == Norm(actions[i])
  {
    p := [actions[i]] + (actions[..i] + actions[i + 1..]);
    assert actions == actions[..i] + [actions[i]] + actions[i + 1..];
    ActionOrderIsTotal();
    forall k | ActionLe(k, Norm(actions[i])) && ActionLe(Norm(actions[i]), k)
      ensures |Ties(Canonical(p), k, ActionLe)| > 0 && Ties(Canonical(p), k, ActionLe)[0] == Norm(actions[i])
    {
      SortIsStable(NormAll(p), k, ActionLe);
      assert NormAll(p)[0] == Norm(actions[i]);
    }
  }

  /**
    The canonical list (hence the signature) is the same for every order of the input
    exactly when no two different actions share a sort key.
  */
  lemma OrderInsensitiveIffTiesAreEqual(actions: seq<Action>)
    ensures (forall p | multiset(p) == multiset(actions) :: Canonical(p) == Canonical(actions))
         <==> OnlyEqualTies(NormAll(actions), ActionLe)
  {
    ActionOrderIsTotal();
    if OnlyEqualTies(NormAll(actions), ActionLe) {
      forall p | multiset(p) == multiset(actions) ensures Canonical(p) == Canonical(actions) {
        NormAllKeepsPermutations(p, actions);
        CanonicalIsSortedPermutation(p);
        CanonicalIsSortedPermutation(actions);
        forall a | a in Canonical(actions) ensures a in NormAll(actions) {
          assert a in multiset(Canonical(actions));
        }
        SortedPermutationsAgree(Canonical(actions), Canonical(p), ActionLe);
      }
    } else {
      var a, b :| a in NormAll(actions) && b in NormAll(actions) && ActionLe(a, b) && ActionLe(b, a) && a != b;
      var i :| 0 <= i < |actions| && NormAll(actions)[i] == a;
      var j :| 0 <= j < |actions| && NormAll(actions)[j] == b;
      var p := FrontOfTies(actions, i);
      var q := FrontOfTies(actions, j);
      assert Chains(ActionLe, a, b, a);
      assert Ties(Canonical(p), a, ActionLe)[0] == a;
      assert Ties(Canonical(q), a, ActionLe)[0] == b;
      assert Canonical(p) != Canonical(q);
    }
  }

  // ---- what the order is ----

  /** Normalising keeps the keys, writes decimals as text and leaves everything else. */
  lemma NormMeans(action: Action, key: string)
    ensures key in Norm(action) <==> key in action
    ensures key in action ==> Norm(action)[key] == match action[key]
                                                   case Dec(digits) => Text(digits)
                                                   case other => other
  {
  }

  /** The identifier is the first of these five that is there and not null; missing, it is empty. */
  lemma IdentifierMeans(a: Action)
    ensures var id := StableIdentifier(a);
      if Has(a, "tool_call_id") then id == Str(a["tool_call_id"])
      else if Has(a, "id") then id == Str(a["id"])
      else if Has(a, "target_id") then id == Str(a["target_id"])
      else if Has(a, "resource_id") then id == Str(a["resource_id"])
      else if Has(a, "reference_id") then id == Str(a["reference_id"])
      else id == ""
  {
  }

  /** Approvals of a tool first, then the four run-level names, then the rest. */
  function Group(action: Action): int {
    var name := Strip(GetStr(action, "action"));
    if name == "approve" && "tool_call_id" in action && action["tool_call_id"] != Null then 0
    else if name == "resume" || name == "approve" || name == "cancel" || name == "handoff" then 1
    else 2
  }

  /** The place of a run-level name. */
  function Place(name: string): int {
    if name == "resume" then 0 else if name == "approve" then 1 else if name == "cancel" then 2 else 3
  }

  predicate Before(s: string, t: string) { Lex.Less(Lex.Codes(s), Lex.Codes(t)) }

  /** When one action strictly precedes another. */
  predicate Precedes(a: Action, b: Action) {
    var m, n := Strip(GetStr(a, "action")), Strip(GetStr(b, "action"));
    if Group(a) != Group(b) then Group(a) < Group(b)
    else if Group(a) == 0 then Before(Str(a["tool_call_id"]), Str(b["tool_call_id"]))
    else if m == n then Before(StableIdentifier(a), StableIdentifier(b))
    else if Group(a) == 1 then Place(m) < Place(n)
    else Before(m, n)
  }

  /**
    Of two actions the canonical list may have the first in front exactly if the second does not strictly precede
    it.
  */
  lemma OrderMeans(a: Action, b: Action)
    ensures ActionLe(a, b) <==> !Precedes(b, a)
  {
    var k, l := ActionSortKey(a), ActionSortKey(b);
    StrTotal(k.ident, l.ident);
    if k.rank.Name? && l.rank.Name? { StrTotal(k.rank.s, l.rank.s); }
    assert RUN_LEVEL_PRIORITY.Keys == {"resume", "approve", "cancel", "handoff"};
  }
}
