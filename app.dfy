/** The issue ledger behind the Flask API in app.py: a list of issue records and
    the four POST handlers that create an issue, take it, complete it and
    contribute money to it. The JSON file the handlers read and rewrite on every
    request is replaced by the field `issues` of the class IssueStore; each
    handler is also given as a pure step function on the list, which the
    class's methods are proved to implement. */
module App {
  import opened PyStr

  /** A JSON request field that may be absent; `GetOr` is `request.json.get(key, default)`. */
  datatype Option<T> = None | Some(value: T) {
    function GetOr(default: T): T {
      match this
      case Some(v) => v
      case None => default
    }
  }

  /** The stored strings "open", "in_progress" and "completed". */
  datatype Status = Open | InProgress | Completed

  /** One record of the issues list; `takenBy` is the JSON `null` or the worker's name. */
  datatype Issue = Issue(
    id: int,
    title: string,
    description: string,
    targetAmount: int,
    collectedAmount: int,
    status: Status,
    takenBy: Option<string>)

  /** What a handler answers: success, or the error it returns. */
  datatype Outcome = Ok | NotAvailable | NameRequired | NotFound | InvalidAmount

  /** The HTTP status that goes with each answer. */
  function HttpStatus(o: Outcome): (code: int)
    ensures code == 200 <==> o == Ok
    ensures code == 404 <==> o == NotFound
    ensures code == 400 <==> o in {NotAvailable, NameRequired, InvalidAmount}
  {
    match o
    case Ok => 200
    case NotFound => 404
    case _ => 400
  }

  /** A handler's answer together with the list it leaves behind. */
  datatype Reply = Reply(outcome: Outcome, issues: seq<Issue>)

  // ---------------------------------------------------------------------------
  // Lookup and invariants
  // ---------------------------------------------------------------------------

  /** Some issue of `s` has this id. */
  predicate HasId(s: seq<Issue>, id: int) {
    exists k :: 0 <= k < |s| && s[k].id == id
  }

  /** Some issue of `s` has this id and is open. */
  predicate OpenWithId(s: seq<Issue>, id: int) {
    exists k :: 0 <= k < |s| && s[k].id == id && s[k].status == Open
  }

  /** `next((i for i in issues if i["id"] == id), None)`: the index of the first
      issue with this id, or None when there is none. */
  function FindFirst(s: seq<Issue>, id: int): (r: Option<nat>)
    ensures r.Some? ==> r.value < |s| && s[r.value].id == id
    ensures r.Some? ==> forall j :: 0 <= j < r.value ==> s[j].id != id
    ensures r.None? <==> !HasId(s, id)
  {
    if s == [] then None
    else if s[0].id == id then Some(0)
    else match FindFirst(s[1..], id)
      case None => None
      case Some(k) => Some(k + 1)
  }

  /** The ids are strictly increasing along the list, so no two issues share one. */
  predicate IdsIncreasing(s: seq<Issue>) {
    forall i, j :: 0 <= i < j < |s| ==> s[i].id < s[j].id
  }

  /** What every record written by the handlers satisfies. */
  predicate WellFormed(x: Issue) {
    && x.id >= 1
    && x.collectedAmount >= 0
    && Stripped(x.title)
    && Stripped(x.description)
    && (x.takenBy.Some? ==> x.takenBy.value != [] && Stripped(x.takenBy.value))
    && (x.status == Open ==> x.takenBy.None?)
    && (x.status == InProgress ==> x.takenBy.Some?)
  }

  /** The ledger invariant: unique increasing ids and well-formed records. */
  predicate ValidLedger(s: seq<Issue>) {
    IdsIncreasing(s) && forall i :: 0 <= i < |s| ==> WellFormed(s[i])
  }

  /** Position of a status in the lifecycle open -> in_progress -> completed. */
  function Rank(st: Status): nat {
    match st
    case Open => 0
    case InProgress => 1
    case Completed => 2
  }

  /** How one record may change under any handler: identity, title, description
      and target stay; the collected amount and the lifecycle only move forward;
      once an issue has left `open` its worker is never replaced. */
  predicate Persists(a: Issue, b: Issue) {
    && a.id == b.id
    && a.title == b.title
    && a.description == b.description
    && a.targetAmount == b.targetAmount
    && a.collectedAmount <= b.collectedAmount
    && Rank(a.status) <= Rank(b.status)
    && (a.status != Open ==> b.takenBy == a.takenBy)
  }

  /** `t` is a later state of the list `s`: nothing is removed or reordered, and
      every record of `s` persists in `t`. */
  predicate Evolves(s: seq<Issue>, t: seq<Issue>) {
    |s| <= |t| && forall i :: 0 <= i < |s| ==> Persists(s[i], t[i])
  }

  // ---------------------------------------------------------------------------
  // The four handlers as functions of the list
  // ---------------------------------------------------------------------------

  /** `(issues[-1]["id"] if issues else 0) + 1`. */
  function NextId(s: seq<Issue>): (r: int)
    ensures IdsIncreasing(s) ==> forall i :: 0 <= i < |s| ==> s[i].id < r
  {
    if s == [] then 1 else s[|s| - 1].id + 1
  }

  /** The record `api_create_issue` appends. */
  function NewIssue(s: seq<Issue>, title: Option<string>, description: Option<string>, targetAmount: Option<int>): Issue {
    Issue(NextId(s), Strip(title.GetOr("")), Strip(description.GetOr("")), targetAmount.GetOr(0), 0, Open, None)
  }

  /** `api_create_issue`: always succeeds and appends one record. */
  function CreateStep(s: seq<Issue>, title: Option<string>, description: Option<string>, targetAmount: Option<int>): seq<Issue> {
    s + [NewIssue(s, title, description, targetAmount)]
  }

  /** `api_take_issue`: availability is checked before the worker name. */
  function TakeStep(s: seq<Issue>, id: nat, worker: Option<string>): Reply {
    match FindFirst(s, id)
    case None => Reply(NotAvailable, s)
    case Some(k) =>
      if s[k].status != Open then Reply(NotAvailable, s)
      else
        var name := Strip(worker.GetOr(""));
        if name == [] then Reply(NameRequired, s)
        else Reply(Ok, s[k := s[k].(status := InProgress, takenBy := Some(name))])
  }

  /** `api_complete_issue`: any existing issue becomes completed. */
  function CompleteStep(s: seq<Issue>, id: nat): Reply {
    match FindFirst(s, id)
    case None => Reply(NotFound, s)
    case Some(k) => Reply(Ok, s[k := s[k].(status := Completed)])
  }

  /** `api_contribute`: existence is checked before the amount. */
  function ContributeStep(s: seq<Issue>, id: nat, amount: Option<int>): Reply {
    match FindFirst(s, id)
    case None => Reply(NotFound, s)
    case Some(k) =>
      var a := amount.GetOr(0);
      if a <= 0 then Reply(InvalidAmount, s)
      else Reply(Ok, s[k := s[k].(collectedAmount := s[k].collectedAmount + a)])
  }

  // ---------------------------------------------------------------------------
  // Properties of the handlers
  // ---------------------------------------------------------------------------

  /** Under unique ids the first match is the only match. */
  lemma FindFirstUnique(s: seq<Issue>, id: int, k: nat)
    requires IdsIncreasing(s)
    requires k < |s| && s[k].id == id
    ensures FindFirst(s, id) == Some(k)
  {
  }

  /** Lookup only looks at ids, so a handler that keeps the ids keeps every lookup. */
  lemma FindFirstSameIds(s: seq<Issue>, t: seq<Issue>, id: int)
    requires |s| == |t|
    requires forall i :: 0 <= i < |s| ==> s[i].id == t[i].id
    ensures FindFirst(s, id) == FindFirst(t, id)
  {
  }

  /** Create appends exactly one record: the earlier ones are untouched and the
      new one is open, unfunded, untaken, holds the stripped texts and the target
      as given; its id is 1 on an empty list and, when the ids are increasing,
      carried by no earlier issue. */
  lemma CreateEffect(s: seq<Issue>, title: Option<string>, description: Option<string>, targetAmount: Option<int>)
    ensures var t := CreateStep(s, title, description, targetAmount);
      && |t| == |s| + 1
      && t[..|s|] == s
      && t[|s|].title == Strip(title.GetOr(""))
      && t[|s|].description == Strip(description.GetOr(""))
      && t[|s|].targetAmount == targetAmount.GetOr(0)
      && t[|s|].collectedAmount == 0
      && t[|s|].status == Open
      && t[|s|].takenBy == None
      && (s == [] ==> t[|s|].id == 1)
      && (IdsIncreasing(s) ==> !HasId(s, t[|s|].id))
  {
  }

  /** Create keeps the ledger invariant (the new id extends the increasing order). */
  lemma CreatePreservesValid(s: seq<Issue>, title: Option<string>, description: Option<string>, targetAmount: Option<int>)
    requires ValidLedger(s)
    ensures ValidLedger(CreateStep(s, title, description, targetAmount))
  {
  }

  /** Take, in terms of the issue with the requested id: "not available" exactly
      when no such issue is open, "name required" exactly when it is open and the
      stripped name is empty, and on success only that issue changes, to
      in_progress with the stripped name as its worker. Errors keep the list. */
  lemma TakeEffect(s: seq<Issue>, id: nat, worker: Option<string>)
    requires IdsIncreasing(s)
    ensures var r := TakeStep(s, id, worker);
      var name := Strip(worker.GetOr(""));
      var available := OpenWithId(s, id);
      && (r.outcome == NotAvailable <==> !available)
      && (r.outcome == NameRequired <==> available && name == [])
      && (r.outcome == Ok <==> available && name != [])
      && (r.outcome != Ok ==> r.issues == s)
      && (r.outcome == Ok ==> |r.issues| == |s| && forall i :: 0 <= i < |s| ==>
            r.issues[i] == if s[i].id == id then s[i].(status := InProgress, takenBy := Some(name)) else s[i])
  {
  }

  /** Take keeps the ledger invariant. */
  lemma TakePreservesValid(s: seq<Issue>, id: nat, worker: Option<string>)
    requires ValidLedger(s)
    ensures ValidLedger(TakeStep(s, id, worker).issues)
  {
  }

  /** Complete: "not found" exactly when no issue has the id, and then the list is
      kept; otherwise that issue, whatever its status, becomes completed and
      nothing else changes. */
  lemma CompleteEffect(s: seq<Issue>, id: nat)
    requires IdsIncreasing(s)
    ensures var r := CompleteStep(s, id);
      && (r.outcome == NotFound <==> !HasId(s, id))
      && (r.outcome == Ok <==> HasId(s, id))
      && (r.outcome == NotFound ==> r.issues == s)
      && (r.outcome == Ok ==> |r.issues| == |s| && forall i :: 0 <= i < |s| ==>
            r.issues[i] == if s[i].id == id then s[i].(status := Completed) else s[i])
  {
  }

  /** Complete keeps the ledger invariant. */
  lemma CompletePreservesValid(s: seq<Issue>, id: nat)
    requires ValidLedger(s)
    ensures ValidLedger(CompleteStep(s, id).issues)
  {
  }

  /** Contribute: "not found" when no issue has the id, whatever the amount;
      "invalid amount" when it exists and the amount is not positive; on success
      only that issue's collected amount grows, by exactly the amount, and its
      status is untouched. Errors keep the list. */
  lemma ContributeEffect(s: seq<Issue>, id: nat, amount: Option<int>)
    requires IdsIncreasing(s)
    ensures var r := ContributeStep(s, id, amount);
      var a := amount.GetOr(0);
      && (r.outcome == NotFound <==> !HasId(s, id))
      && (r.outcome == InvalidAmount <==> HasId(s, id) && a <= 0)
      && (r.outcome == Ok <==> HasId(s, id) && a > 0)
      && (r.outcome != Ok ==> r.issues == s)
      && (r.outcome == Ok ==> |r.issues| == |s| && forall i :: 0 <= i < |s| ==>
            r.issues[i] == if s[i].id == id then s[i].(collectedAmount := s[i].collectedAmount + a) else s[i])
  {
  }

  /** Contribute keeps the ledger invariant. */
  lemma ContributePreservesValid(s: seq<Issue>, id: nat, amount: Option<int>)
    requires ValidLedger(s)
    ensures ValidLedger(ContributeStep(s, id, amount).issues)
  {
  }

  /** Completing twice answers and leaves the same as completing once. */
  lemma CompleteIdempotent(s: seq<Issue>, id: nat)
    ensures var once := CompleteStep(s, id);
      CompleteStep(once.issues, id) == once
  {
    var once := CompleteStep(s, id);
    FindFirstSameIds(s, once.issues, id);
    if once.outcome == Ok {
      var k := FindFirst(s, id).value;
      assert once.issues[k := once.issues[k].(status := Completed)] == once.issues;
    }
  }

  /** An issue is taken at most once: right after a successful take, any further
      take of the same id is refused as not available and changes nothing. */
  lemma TakeOnce(s: seq<Issue>, id: nat, worker: Option<string>, other: Option<string>)
    requires TakeStep(s, id, worker).outcome == Ok
    ensures TakeStep(TakeStep(s, id, worker).issues, id, other) == Reply(NotAvailable, TakeStep(s, id, worker).issues)
  {
    FindFirstSameIds(s, TakeStep(s, id, worker).issues, id);
  }

  /** A completed issue can no longer be taken. */
  lemma CompletedNotTakeable(s: seq<Issue>, id: nat, worker: Option<string>)
    requires CompleteStep(s, id).outcome == Ok
    ensures TakeStep(CompleteStep(s, id).issues, id, worker) == Reply(NotAvailable, CompleteStep(s, id).issues)
  {
    FindFirstSameIds(s, CompleteStep(s, id).issues, id);
  }

  /** Two successful contributions leave the same list as one of their sum. */
  lemma ContributionsAdd(s: seq<Issue>, id: nat, a: int, b: int)
    requires a > 0 && b > 0
    ensures ContributeStep(ContributeStep(s, id, Some(a)).issues, id, Some(b))
         == ContributeStep(s, id, Some(a + b))
  {
    var first := ContributeStep(s, id, Some(a));
    FindFirstSameIds(s, first.issues, id);
  }

  // ---------------------------------------------------------------------------
  // Sequences of requests
  // ---------------------------------------------------------------------------

  /** One POST request to the API, with the JSON fields it may carry. */
  datatype Request =
    | CreateIssue(title: Option<string>, description: Option<string>, targetAmount: Option<int>)
    | TakeIssue(issueId: nat, worker: Option<string>)
    | CompleteIssue(issueId: nat)
    | ContributeTo(issueId: nat, amount: Option<int>)

  /** The handler routed for a request. */
  function Apply(s: seq<Issue>, req: Request): Reply {
    match req
    case CreateIssue(title, description, target) => Reply(Ok, CreateStep(s, title, description, target))
    case TakeIssue(id, worker) => TakeStep(s, id, worker)
    case CompleteIssue(id) => CompleteStep(s, id)
    case ContributeTo(id, amount) => ContributeStep(s, id, amount)
  }

  /** The list after serving the requests one after the other. */
  function Run(s: seq<Issue>, reqs: seq<Request>): seq<Issue>
    decreases |reqs|
  {
    if reqs == [] then s else Run(Apply(s, reqs[0]).issues, reqs[1..])
  }

  /** Every handler, on any list, leaves a later state of it. */
  lemma ApplyEvolves(s: seq<Issue>, req: Request)
    ensures Evolves(s, Apply(s, req).issues)
  {
  }

  /** Every handler keeps the ledger invariant. */
  lemma ApplyPreservesValid(s: seq<Issue>, req: Request)
    requires ValidLedger(s)
    ensures ValidLedger(Apply(s, req).issues)
  {
  }

  /** The invariant holds after any sequence of requests. */
  lemma {:induction false} RunPreservesValid(s: seq<Issue>, reqs: seq<Request>)
    requires ValidLedger(s)
    ensures ValidLedger(Run(s, reqs))
    decreases |reqs|
  {
    if reqs != [] {
      ApplyPreservesValid(s, reqs[0]);
      RunPreservesValid(Apply(s, reqs[0]).issues, reqs[1..]);
    }
  }

  /** Over any sequence of requests, records are never removed or reordered,
      amounts never decrease and no issue returns to an earlier status. */
  lemma {:induction false} RunEvolves(s: seq<Issue>, reqs: seq<Request>)
    ensures Evolves(s, Run(s, reqs))
    decreases |reqs|
  {
    if reqs != [] {
      var t := Apply(s, reqs[0]).issues;
      ApplyEvolves(s, reqs[0]);
      RunEvolves(t, reqs[1..]);
    }
  }

  /** Number of create requests among `reqs`. */
  function Creates(reqs: seq<Request>): nat {
    if reqs == [] then 0 else (if reqs[0].CreateIssue? then 1 else 0) + Creates(reqs[1..])
  }

  /** Starting from an empty file, the issue at position i has id i + 1, and
      exactly one issue exists per create request served. */
  lemma {:induction false} RunFromEmpty(s: seq<Issue>, reqs: seq<Request>)
    requires forall i :: 0 <= i < |s| ==> s[i].id == i + 1
    ensures var t := Run(s, reqs);
      && |t| == |s| + Creates(reqs)
      && forall i :: 0 <= i < |t| ==> t[i].id == i + 1
    decreases |reqs|
  {
    if reqs != [] {
      var t := Apply(s, reqs[0]).issues;
      ApplyEvolves(s, reqs[0]);
      RunFromEmpty(t, reqs[1..]);
    }
  }

  // ---------------------------------------------------------------------------
  // The store the handlers read and rewrite
  // ---------------------------------------------------------------------------

  /** The issues list that every handler loads, updates in place and saves. */
  class IssueStore {
    var issues: seq<Issue>

    ghost predicate Valid()
      reads this
    {
      ValidLedger(issues)
    }

    /** A store whose file does not exist yet: `read_json` yields []. */
    constructor()
      ensures issues == [] && Valid()
    {
      issues := [];
    }

    /** The generator search `next(...)` over the list. */
    method Find(id: int) returns (k: Option<nat>)
      ensures k == FindFirst(issues, id)
      ensures k.Some? ==> k.value < |issues| && issues[k.value].id == id
      ensures k.None? <==> !HasId(issues, id)
    {
      var i := 0;
      while i < |issues|
        invariant 0 <= i <= |issues|
        invariant forall j :: 0 <= j < i ==> issues[j].id != id
      {
        if issues[i].id == id {
          return Some(i);
        }
        i := i + 1;
      }
      return None;
    }

    /** `api_create_issue`. */
    method Create(title: Option<string>, description: Option<string>, targetAmount: Option<int>)
      modifies this
      ensures issues == CreateStep(old(issues), title, description, targetAmount)
      ensures |issues| == |old(issues)| + 1 && issues[..|old(issues)|] == old(issues)
      ensures old(Valid()) ==> Valid()
    {
      CreateEffect(issues, title, description, targetAmount);
      if Valid() {
        CreatePreservesValid(issues, title, description, targetAmount);
      }
      issues := issues + [NewIssue(issues, title, description, targetAmount)];
    }

    /** `api_take_issue`. */
    method Take(id: nat, worker: Option<string>) returns (o: Outcome)
      modifies this
      ensures Reply(o, issues) == TakeStep(old(issues), id, worker)
      ensures o != Ok ==> issues == old(issues)
      ensures Evolves(old(issues), issues)
      ensures old(Valid()) ==> Valid()
      ensures old(Valid()) ==> (o == NotAvailable <==> !OpenWithId(old(issues), id))
      ensures old(Valid()) ==> (o == NameRequired <==> OpenWithId(old(issues), id) && Strip(worker.GetOr("")) == [])
      ensures old(Valid()) && o == Ok ==> forall i :: 0 <= i < |issues| ==>
        issues[i] == if old(issues)[i].id == id
          then old(issues)[i].(status := InProgress, takenBy := Some(Strip(worker.GetOr(""))))
          else old(issues)[i]
    {
      ApplyEvolves(issues, TakeIssue(id, worker));
      if Valid() {
        TakePreservesValid(issues, id, worker);
        TakeEffect(issues, id, worker);
      }
      var k := Find(id);
      if k.None? || issues[k.value].status != Open {
        return NotAvailable;
      }
      var name := Strip(worker.GetOr(""));
      if name == [] {
        return NameRequired;
      }
      issues := issues[k.value := issues[k.value].(status := InProgress, takenBy := Some(name))];
      o := Ok;
    }

    /** `api_complete_issue`. */
    method Complete(id: nat) returns (o: Outcome)
      modifies this
      ensures Reply(o, issues) == CompleteStep(old(issues), id)
      ensures o != Ok ==> issues == old(issues)
      ensures Evolves(old(issues), issues)
      ensures old(Valid()) ==> Valid()
      ensures old(Valid()) ==> (o == NotFound <==> !HasId(old(issues), id))
      ensures old(Valid()) && o == Ok ==> forall i :: 0 <= i < |issues| ==>
        issues[i] == if old(issues)[i].id == id then old(issues)[i].(status := Completed) else old(issues)[i]
    {
      ApplyEvolves(issues, CompleteIssue(id));
      if Valid() {
        CompletePreservesValid(issues, id);
        CompleteEffect(issues, id);
      }
      var k := Find(id);
      if k.None? {
        return NotFound;
      }
      issues := issues[k.value := issues[k.value].(status := Completed)];
      o := Ok;
    }

    /** `api_contribute`. */
    method Contribute(id: nat, amount: Option<int>) returns (o: Outcome)
      modifies this
      ensures Reply(o, issues) == ContributeStep(old(issues), id, amount)
      ensures o != Ok ==> issues == old(issues)
      ensures Evolves(old(issues), issues)
      ensures old(Valid()) ==> Valid()
      ensures old(Valid()) ==> (o == NotFound <==> !HasId(old(issues), id))
      ensures old(Valid()) ==> (o == InvalidAmount <==> HasId(old(issues), id) && amount.GetOr(0) <= 0)
      ensures old(Valid()) && o == Ok ==> forall i :: 0 <= i < |issues| ==>
        issues[i] == if old(issues)[i].id == id
          then old(issues)[i].(collectedAmount := old(issues)[i].collectedAmount + amount.GetOr(0))
          else old(issues)[i]
    {
      ApplyEvolves(issues, ContributeTo(id, amount));
      if Valid() {
        ContributePreservesValid(issues, id, amount);
        ContributeEffect(issues, id, amount);
      }
      var k := Find(id);
      if k.None? {
        return NotFound;
      }
      var a := amount.GetOr(0);
      if a <= 0 {
        return InvalidAmount;
      }
      issues := issues[k.value := issues[k.value].(collectedAmount := issues[k.value].collectedAmount + a)];
      o := Ok;
    }
  }
}
