/** What is advertised is what is enabled, and when it depends on the order of a scan. */
module AgentActions {
  import opened Options
  import opened Strings
  import opened OrchestrationContracts
  import opened AgentStore
  import opened AgentProtocol
  import opened StableSort
  import opened AgentFence

  /** The actions before canonical ordering. */
  function Gathered(db: Db, r: Id, run: Run): seq<Action> {
    ApproveActions(db.approvals, db.scan, r, run.version) + RunLevelActions(run, HasStarted(db, r, None))
  }

  predicate Offers(approvals: map<Id, Approval>, r: Id, version: nat, id: Id, a: Action) {
    id in approvals && Consumable(approvals[id], r, version) && a == ApproveAction(id, approvals[id])
  }

  lemma {:induction false} ApproveActionsAre(approvals: map<Id, Approval>, scan: seq<Id>, r: Id, version: nat,
                                             a: Action)
    ensures a in ApproveActions(approvals, scan, r, version)
       <==> exists id | id in scan :: Offers(approvals, r, version, id, a)
  {
    if scan != [] {
      ApproveActionsAre(approvals, scan[1..], r, version, a);
      assert scan == [scan[0]] + scan[1..];
      assert a in ApproveActions(approvals, scan, r, version)
        <==> Offers(approvals, r, version, scan[0], a) || a in ApproveActions(approvals, scan[1..], r, version);
    }
  }

  lemma RunLevelActionsAre(run: Run, hasStarted: bool, a: Action)
    requires a in RunLevelActions(run, hasStarted)
    ensures a == Plain("resume") || a == Plain("cancel") || a == Plain("handoff")
  {
  }

  lemma TextIsNormal(a: Action)
    requires forall k | k in a :: a[k].Text?
    ensures Norm(a) == a
  {
  }

  lemma GatheredIsNormal(db: Db, r: Id, run: Run)
    ensures NormAll(Gathered(db, r, run)) == Gathered(db, r, run)
  {
    var g := Gathered(db, r, run);
    forall i | 0 <= i < |g| ensures Norm(g[i]) == g[i] {
      assert g[i] in g;
      if g[i] in RunLevelActions(run, HasStarted(db, r, None)) {
        RunLevelActionsAre(run, HasStarted(db, r, None), g[i]);
      } else {
        ApproveActionsAre(db.approvals, db.scan, r, run.version, g[i]);
      }
      TextIsNormal(g[i]);
    }
  }

  lemma AdvertisedIsGathered(db: Db, r: Id, run: Run, a: Action)
    requires !TerminalRun(run.state)
    ensures a in ValidActions(db, r, run, None) <==> a in Gathered(db, r, run)
  {
    GatheredIsNormal(db, r, run);
    CanonicalIsSortedPermutation(Gathered(db, r, run));
    assert a in ValidActions(db, r, run, None) <==> a in multiset(Canonical(Gathered(db, r, run)));
  }

  lemma NameIsGathered(db: Db, r: Id, run: Run, a: Action)
    requires a in Gathered(db, r, run)
    ensures GetStr(a, "action") == "approve" || a in RunLevelActions(run, HasStarted(db, r, None))
    ensures a in RunLevelActions(run, HasStarted(db, r, None)) ==> a == Plain(GetStr(a, "action"))
  {
    if a in RunLevelActions(run, HasStarted(db, r, None)) {
      RunLevelActionsAre(run, HasStarted(db, r, None), a);
    } else {
      ApproveActionsAre(db.approvals, db.scan, r, run.version, a);
    }
  }

  lemma NameIsAdvertised(db: Db, r: Id, run: Run, name: string)
    requires name != "approve" && !TerminalRun(run.state)
    ensures name in ActionNames(ValidActions(db, r, run, None))
       <==> Plain(name) in RunLevelActions(run, HasStarted(db, r, None))
  {
    var actions := ValidActions(db, r, run, None);
    if Plain(name) in RunLevelActions(run, HasStarted(db, r, None)) {
      AdvertisedIsGathered(db, r, run, Plain(name));
      assert Plain(name) in actions && GetStr(Plain(name), "action") == name;
    }
    if name in ActionNames(actions) {
      var a :| a in actions && GetStr(a, "action") == name;
      AdvertisedIsGathered(db, r, run, a);
      NameIsGathered(db, r, run, a);
    }
  }

  lemma PlainNames()
    ensures Plain("resume") != Plain("cancel") && Plain("cancel") != Plain("handoff")
    ensures Plain("resume") != Plain("handoff")
  {
    assert Plain("resume")["action"].text[0] == 'r' && Plain("cancel")["action"].text[0] == 'c';
    assert Plain("handoff")["action"].text[0] == 'h';
  }

  lemma PlainIsOffered(run: Run, hasStarted: bool)
    requires !TerminalRun(run.state)
    ensures var offered := RunLevelActions(run, hasStarted);
      && (Plain("resume") in offered <==> run.state == Created || (run.state == Interrupted && run.resumable))
      && Plain("cancel") in offered
      && (Plain("handoff") in offered <==> run.state == Running && !hasStarted)
  {
    PlainNames();
  }

  lemma RunLevelNames(db: Db, r: Id, run: Run)
    requires !TerminalRun(run.state)
    ensures var names := ActionNames(ValidActions(db, r, run, None));
      && ("resume" in names <==> run.state == Created || (run.state == Interrupted && run.resumable))
      && "cancel" in names
      && ("handoff" in names <==> run.state == Running && !HasStarted(db, r, None))
  {
    PlainIsOffered(run, HasStarted(db, r, None));
    NotApprove();
    NameIsAdvertised(db, r, run, "resume");
    NameIsAdvertised(db, r, run, "cancel");
    NameIsAdvertised(db, r, run, "handoff");
  }

  lemma NotApprove()
    ensures "resume" != "approve" && "cancel" != "approve" && "handoff" != "approve"
  {
    assert "resume"[0] == 'r' && "cancel"[0] == 'c' && "handoff"[0] == 'h';
  }

  /** A run-level action is advertised exactly when applying it is accepted. */
  lemma AdvertisedIffEnabled(db: Db, r: Id, run: Run)
    ensures var names := ActionNames(ValidActions(db, r, run, None));
      var started := HasStarted(db, r, None);
      && ("resume" in names <==> ApplyAction(run, "resume", started, db.now).Moved?)
      && ("cancel" in names <==> ApplyAction(run, "cancel", started, db.now).Moved?)
      && ("handoff" in names <==> run.state == Running && !started)
  {
    if !TerminalRun(run.state) { RunLevelNames(db, r, run); }
  }

  /** The run row a request is checked against: the one expiry leaves it with. */
  function Checked(db: Db, m: Mutation): Db
    requires m.runId in db.runs
  {
    PutRun(db, m.runId, ExpireIfDue(db.runs[m.runId], db.now))
  }

  /**
    An approval is consumed exactly when the request is admitted, its fence holds and the guarded update
    would hit the row; it is then consumed for good, whatever version the run moves on to.
  */
  lemma ConsumedIffConsumable(limits: Limits, db: Db, m: Mutation)
    requires m.Consume?
    ensures var (d, out) := Commit(limits, db, m);
      (out.Answered? && out.code == 200)
        <==> Admission(db, m) == None && FenceHolds(Checked(db, m), m.runId, m.expectedVersion, m.expectedSignature)
             && Consumable(db.approvals[m.approvalId], m.runId, Checked(db, m).runs[m.runId].version)
    ensures var (d, out) := Commit(limits, db, m);
      out.Answered? && out.code == 200 ==>
        && m.approvalId in d.approvals && d.approvals == db.approvals[m.approvalId := d.approvals[m.approvalId]]
        && forall v: nat :: !Consumable(d.approvals[m.approvalId], m.runId, v)
  {
  }

  /** Outside terminal states an approval is advertised exactly when its guarded update would hit its row. */
  lemma ApproveAdvertisedIffConsumable(db: Db, r: Id, run: Run, id: Id)
    requires ScanAgrees(db.approvals, db.scan) && id in db.approvals
    ensures ApproveAction(id, db.approvals[id]) in ValidActions(db, r, run, None)
       <==> Consumable(db.approvals[id], r, run.version) && !TerminalRun(run.state)
  {
    var a := ApproveAction(id, db.approvals[id]);
    assert id in multiset(db.approvals.Keys);
    if !TerminalRun(run.state) {
      AdvertisedIsGathered(db, r, run, a);
      ApproveActionsAre(db.approvals, db.scan, r, run.version, a);
      if Consumable(db.approvals[id], r, run.version) { assert Offers(db.approvals, r, run.version, id, a); }
      assert "approval_id" in a && a["approval_id"] == Text(id);
      if a in Gathered(db, r, run) {
        if a in RunLevelActions(run, HasStarted(db, r, None)) {
          RunLevelActionsAre(run, HasStarted(db, r, None), a);
          assert false;
        }
        var other :| other in db.scan && Offers(db.approvals, r, run.version, other, a);
        assert a["approval_id"] == Text(other);
      }
    }
  }

  // ---- what is advertised, and in which order ----

  function Named(name: string): Action { map["action" := Text(name)] }

  function Approving(id: Id, tool: Id): Action {
    map["action" := Text("approve"), "approval_id" := Text(id), "tool_call_id" := Text(tool)]
  }

  /** The approval row lets its tool be run, once, at the run's version. */
  predicate Ready(row: Approval, r: Id, version: nat) {
    row.runId == r && row.decision == Approved && row.consumedAt == None && row.versionApproved == version
  }

  /** Nothing is advertised of a run that is over; of any other, exactly this. */
  lemma AdvertisedAre(db: Db, r: Id, run: Run, a: Action)
    requires ScanAgrees(db.approvals, db.scan)
    ensures run.state in {Completed, Failed, Canceled, Expired} ==> ValidActions(db, r, run, None) == []
    ensures run.state in {Created, Running, AwaitingApproval, Interrupted} ==>
      (a in ValidActions(db, r, run, None) <==>
        || a == Named("cancel")
        || (a == Named("resume") && (run.state == Created || (run.state == Interrupted && run.resumable)))
        || (a == Named("handoff") && run.state == Running && !HasStarted(db, r, None))
        || exists id | id in db.approvals ::
             Ready(db.approvals[id], r, run.version) && a == Approving(id, db.approvals[id].toolId))
  {
    if !TerminalRun(run.state) {
      AdvertisedIsGathered(db, r, run, a);
      PlainIsOffered(run, HasStarted(db, r, None));
      if a in RunLevelActions(run, HasStarted(db, r, None)) { RunLevelActionsAre(run, HasStarted(db, r, None), a); }
      ApproveActionsAre(db.approvals, db.scan, r, run.version, a);
      ScannedIffRow(db);
      if id :| id in db.scan && Offers(db.approvals, r, run.version, id, a) {
        assert Ready(db.approvals[id], r, run.version) && a == Approving(id, db.approvals[id].toolId);
      }
      if id :| id in db.approvals && Ready(db.approvals[id], r, run.version)
              && a == Approving(id, db.approvals[id].toolId) {
        assert Offers(db.approvals, r, run.version, id, a);
      }
    }
  }

  lemma ScannedIffRow(db: Db)
    requires ScanAgrees(db.approvals, db.scan)
    ensures forall id :: id in db.scan <==> id in db.approvals
  {
    forall id ensures id in db.scan <==> id in db.approvals {
      assert id in db.scan <==> id in multiset(db.scan);
      assert id in db.approvals <==> id in multiset(db.approvals.Keys);
    }
  }

  predicate IsNamed(a: Action, name: string) { "action" in a && a["action"] == Text(name) }

  /** Approvals before anything else and by tool among themselves; then resume, cancel and handoff. */
  predicate MayPrecede(a: Action, b: Action) {
    && (IsNamed(b, "approve") ==>
          && IsNamed(a, "approve")
          && "tool_call_id" in a && "tool_call_id" in b && a["tool_call_id"].Text? && b["tool_call_id"].Text?
          && Lex.AtMost(Lex.Codes(a["tool_call_id"].text), Lex.Codes(b["tool_call_id"].text)))
    && (IsNamed(b, "resume") ==> IsNamed(a, "approve") || IsNamed(a, "resume"))
    && (IsNamed(b, "cancel") ==> !IsNamed(a, "handoff"))
  }

  /** An advertised action with its key. */
  predicate Keyed(a: Action) {
    || (IsNamed(a, "approve") && "tool_call_id" in a && a["tool_call_id"].Text?
        && ActionSortKey(a) == SortKey(0, Name(a["tool_call_id"].text), ""))
    || (IsNamed(a, "resume") && ActionSortKey(a) == SortKey(1, Number(10), ""))
    || (IsNamed(a, "cancel") && ActionSortKey(a) == SortKey(1, Number(30), ""))
    || (IsNamed(a, "handoff") && ActionSortKey(a) == SortKey(1, Number(40), ""))
  }

  lemma AdvertisedIsKeyed(db: Db, r: Id, run: Run, a: Action)
    requires a in ValidActions(db, r, run, None)
    ensures Keyed(a)
  {
    AdvertisedIsGathered(db, r, run, a);
    KeysOfRunLevel();
    if a in RunLevelActions(run, HasStarted(db, r, None)) {
      RunLevelActionsAre(run, HasStarted(db, r, None), a);
    } else {
      ApproveActionsAre(db.approvals, db.scan, r, run.version, a);
      var id :| id in db.scan && Offers(db.approvals, r, run.version, id, a);
      KeyOfApprove(id, db.approvals[id]);
    }
  }

  lemma KeyedInOrder(a: Action, b: Action)
    requires Keyed(a) && Keyed(b) && ActionLe(a, b)
    ensures MayPrecede(a, b)
  {
    DifferentNames();
    if IsNamed(a, "approve") && IsNamed(b, "approve") {
      StrTotal(a["tool_call_id"].text, b["tool_call_id"].text);
    }
  }

  lemma DifferentNames()
    ensures "approve" != "resume" && "approve" != "cancel" && "approve" != "handoff"
    ensures "resume" != "cancel" && "resume" != "handoff" && "cancel" != "handoff"
  {
    assert "approve"[0] == 'a' && "resume"[0] == 'r' && "cancel"[0] == 'c' && "handoff"[0] == 'h';
  }

  lemma AdvertisedInOrder(db: Db, r: Id, run: Run, i: nat, j: nat)
    requires i < j < |ValidActions(db, r, run, None)|
    ensures MayPrecede(ValidActions(db, r, run, None)[i], ValidActions(db, r, run, None)[j])
  {
    var v := ValidActions(db, r, run, None);
    assert Sorted(v, ActionLe) by { CanonicalIsSortedPermutation(Gathered(db, r, run)); }
    SortedAt(v, ActionLe, i, j);
    AdvertisedIsKeyed(db, r, run, v[i]);
    AdvertisedIsKeyed(db, r, run, v[j]);
    KeyedInOrder(v[i], v[j]);
  }

  // ---- scan order ----

  /** No two approvals of one tool call are advertised together. */
  ghost predicate NoCompetingApprovals(db: Db, r: Id, version: nat) {
    forall a, b, x, y | a in db.scan && b in db.scan && Offers(db.approvals, r, version, a, x)
                        && Offers(db.approvals, r, version, b, y)
                      :: db.approvals[a].toolId == db.approvals[b].toolId ==> a == b
  }

  lemma {:induction false} ApproveActionsConcat(approvals: map<Id, Approval>, p: seq<Id>, q: seq<Id>, r: Id,
                                                version: nat)
    ensures ApproveActions(approvals, p + q, r, version)
         == ApproveActions(approvals, p, r, version) + ApproveActions(approvals, q, r, version)
  {
    if p == [] {
      assert p + q == q;
    } else {
      ApproveActionsConcat(approvals, p[1..], q, r, version);
      assert (p + q)[1..] == p[1..] + q;
    }
  }

  lemma ApproveActionsWithout(approvals: map<Id, Approval>, q: seq<Id>, j: nat, r: Id, version: nat)
    requires j < |q|
    ensures multiset(ApproveActions(approvals, q, r, version))
         == multiset(ApproveActions(approvals, [q[j]], r, version))
            + multiset(ApproveActions(approvals, Without(q, j), r, version))
  {
    assert q == q[..j] + ([q[j]] + q[j + 1..]);
    ApproveActionsConcat(approvals, q[..j], [q[j]] + q[j + 1..], r, version);
    ApproveActionsConcat(approvals, [q[j]], q[j + 1..], r, version);
    ApproveActionsConcat(approvals, q[..j], q[j + 1..], r, version);
  }

  lemma {:induction false} ApproveActionsPermute(approvals: map<Id, Approval>, p: seq<Id>, q: seq<Id>, r: Id,
                                                 version: nat)
    requires multiset(p) == multiset(q)
    ensures multiset(ApproveActions(approvals, p, r, version)) == multiset(ApproveActions(approvals, q, r, version))
    decreases |p|
  {
    assert |p| == |multiset(p)| && |q| == |multiset(q)|;
    if p != [] {
      var j := MatchHead(p, q);
      ApproveActionsPermute(approvals, p[1..], Without(q, j), r, version);
      ApproveActionsWithout(approvals, p, 0, r, version);
      ApproveActionsWithout(approvals, q, j, r, version);
      assert Without(p, 0) == p[1..];
    }
  }

  lemma KeyOfApprove(id: Id, row: Approval)
    ensures ActionSortKey(ApproveAction(id, row)) == SortKey(0, Name(row.toolId), "")
  {
    assert GetStr(ApproveAction(id, row), "action") == "approve";
  }

  lemma KeysOfRunLevel()
    ensures ActionSortKey(Plain("resume")) == SortKey(1, Number(10), "")
    ensures ActionSortKey(Plain("cancel")) == SortKey(1, Number(30), "")
    ensures ActionSortKey(Plain("handoff")) == SortKey(1, Number(40), "")
  {
    assert Strip("resume") == "resume" && Strip("cancel") == "cancel" && Strip("handoff") == "handoff";
  }

  lemma TiedKeysAreEqual(a: Action, b: Action)
    requires ActionLe(a, b) && ActionLe(b, a)
    ensures ActionSortKey(a) == ActionSortKey(b)
  {
    var k, l := ActionSortKey(a), ActionSortKey(b);
    StrTotal(k.ident, l.ident);
    if k.rank.Name? && l.rank.Name? { StrTotal(k.rank.s, l.rank.s); }
  }

  lemma GatheredTies(db: Db, r: Id, run: Run)
    requires NoCompetingApprovals(db, r, run.version)
    ensures OnlyEqualTies(Gathered(db, r, run), ActionLe)
  {
    var started := HasStarted(db, r, None);
    forall a, b | a in Gathered(db, r, run) && b in Gathered(db, r, run) && ActionLe(a, b) && ActionLe(b, a)
      ensures a == b
    {
      TiedKeysAreEqual(a, b);
      KeysOfRunLevel();
      ApproveActionsAre(db.approvals, db.scan, r, run.version, a);
      ApproveActionsAre(db.approvals, db.scan, r, run.version, b);
      if a in RunLevelActions(run, started) { RunLevelActionsAre(run, started, a); }
      if b in RunLevelActions(run, started) { RunLevelActionsAre(run, started, b); }
      if a in ApproveActions(db.approvals, db.scan, r, run.version) {
        var i :| i in db.scan && Offers(db.approvals, r, run.version, i, a);
        KeyOfApprove(i, db.approvals[i]);
        if b in ApproveActions(db.approvals, db.scan, r, run.version) {
          var j :| j in db.scan && Offers(db.approvals, r, run.version, j, b);
          KeyOfApprove(j, db.approvals[j]);
        }
      } else if b in ApproveActions(db.approvals, db.scan, r, run.version) {
        var j :| j in db.scan && Offers(db.approvals, r, run.version, j, b);
        KeyOfApprove(j, db.approvals[j]);
      }
    }
  }

  lemma MovedToFront(s: seq<Id>, i: nat)
    requires i < |s|
    ensures multiset([s[i]] + Without(s, i)) == multiset(s)
  {
    WithoutOne(s, i);
  }

  /** Met first, an approval heads its ties in the canonical list. */
  lemma ScannedFirst(db: Db, r: Id, run: Run, i: nat, a: Action, k: Action) returns (scan: seq<Id>)
    requires !TerminalRun(run.state) && i < |db.scan| && Offers(db.approvals, r, run.version, db.scan[i], a)
    requires ActionLe(a, k) && ActionLe(k, a)
    ensures multiset(scan) == multiset(db.scan)
    ensures var actions := ValidActions(db.(scan := scan), r, run, None);
      Ties(actions, k, ActionLe) != [] && Ties(actions, k, ActionLe)[0] == a
  {
    scan := [db.scan[i]] + Without(db.scan, i);
    MovedToFront(db.scan, i);
    var d := db.(scan := scan);
    GatheredIsNormal(d, r, run);
    ActionOrderIsTotal();
    SortIsStable(Gathered(d, r, run), k, ActionLe);
    assert Gathered(d, r, run)[0] == a;
  }

  /**
    The advertised list, and with it the signature, survives every change of scan order exactly when
    no tool call has two consumable approvals; otherwise some order yields another signature.
  */
  lemma ScanOrderMattersIffApprovalsCompete(db: Db, r: Id, run: Run)
    requires !TerminalRun(run.state)
    ensures (forall scan | multiset(scan) == multiset(db.scan) ::
              ValidActions(db.(scan := scan), r, run, None) == ValidActions(db, r, run, None))
       <==> NoCompetingApprovals(db, r, run.version)
  {
    if NoCompetingApprovals(db, r, run.version) {
      forall scan | multiset(scan) == multiset(db.scan)
        ensures ValidActions(db.(scan := scan), r, run, None) == ValidActions(db, r, run, None)
      {
        var d := db.(scan := scan);
        ApproveActionsPermute(db.approvals, scan, db.scan, r, run.version);
        HasStartedDependsOnTools(d, db, r, None);
        GatheredIsNormal(db, r, run);
        GatheredTies(db, r, run);
        assert multiset(Gathered(d, r, run)) == multiset(Gathered(db, r, run));
        OrderInsensitiveIffTiesAreEqual(Gathered(db, r, run));
      }
    } else {
      var x, y, a, b :| x in db.scan && y in db.scan && Offers(db.approvals, r, run.version, x, a)
                        && Offers(db.approvals, r, run.version, y, b)
                        && db.approvals[x].toolId == db.approvals[y].toolId && x != y;
      var i :| 0 <= i < |db.scan| && db.scan[i] == x;
      var j :| 0 <= j < |db.scan| && db.scan[j] == y;
      KeyOfApprove(x, db.approvals[x]);
      KeyOfApprove(y, db.approvals[y]);
      assert a["approval_id"] == Text(x) && b["approval_id"] == Text(y);
      StrTotal("", "");
      var p := ScannedFirst(db, r, run, i, a, a);
      var q := ScannedFirst(db, r, run, j, b, a);
      assert ValidActions(db.(scan := p), r, run, None) != ValidActions(db.(scan := q), r, run, None);
    }
  }
}
