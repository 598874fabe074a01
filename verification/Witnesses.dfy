/** Runs that reach what the theorems of Guarantees allow: conditions there do fail, and these are the inputs. */
module Witnesses {
  import opened Durations
  import opened Domain
  import opened Store
  import opened Compliance
  import opened Invariants
  import opened Histories
  import opened Guarantees

  const CUSTOMER := ID(0, 0)
  const ALERT := ID(2, 2)
  const CASE := ID(3, 0)
  const SUBMISSION := Call(0, 1, Onboard(Company, "Acme", "GB", LowRisk, "maker"))
  const APPROVAL := Call(1, 2, Review(CUSTOMER, Approve, "checker", "ok"))
  const OPENING := Call(3, 4, OpenCase(ALERT, "t", Low, "clerk"))
  const CLOSURE := Call(4, 5, Close(ALERT, "clerk", "done"))

  function Command(at: Time): IngestCommand {
    IngestCommand("r", CUSTOMER, Inbound, LARGE_AMOUNT, "GBP", "GB", at, "clerk", "k")
  }

  function Payment(serial: nat, at: Time): Call {
    Call(serial, serial + 1, Ingest(Command(at)))
  }

  // ---------- one step at a time ----------

  lemma {:induction false} Submitting(s: State)
    ensures var t := Perform(s, SUBMISSION).state;
            && CUSTOMER in t.customers && t.customers[CUSTOMER].status == PendingApproval
            && t.customers[CUSTOMER].createdBy == "maker"
            && t == s.(customers := t.customers, events := t.events)
  {
    TrimKeeps("Acme");
    TrimKeeps("GB");
    TrimKeeps("maker");
  }

  lemma {:induction false} Approving(s: State)
    requires CUSTOMER in s.customers && s.customers[CUSTOMER].status == PendingApproval
    requires s.customers[CUSTOMER].createdBy == "maker"
    ensures var t := Perform(s, APPROVAL).state;
            && CUSTOMER in t.customers && t.customers[CUSTOMER].status == Active
            && t == s.(customers := t.customers, events := t.events)
  {
    TrimKeeps("checker");
    TrimKeeps("ok");
    assert "checker"[0] != "maker"[0];
  }

  lemma {:induction false} CommandIsNormal(at: Time)
    requires at != ZERO_TIME
    ensures Normalized(Command(at)) == Command(at) && ValidIngest(Command(at))
  {
    TrimKeeps("r");
    TrimKeeps("GBP");
    TrimKeeps("GB");
    TrimKeeps("clerk");
    TrimKeeps("k");
  }

  lemma {:induction false} LargeIsFlagged(c: Call, t: Transaction)
    requires t.amountMinor >= LARGE_AMOUNT
    ensures var alerts := NewAlerts(c, t, Findings(t));
            alerts != [] && alerts[0].id == ID(c.serial, 2) && alerts[0].status == AlertOpen
  {
  }

  lemma {:induction false} Paying(s: State, c: Call, cmd: IngestCommand)
    requires c.request == Ingest(cmd) && Normalized(cmd) == cmd && ValidIngest(cmd) && cmd.amountMinor >= LARGE_AMOUNT
    requires cmd.customer in s.customers && s.customers[cmd.customer].status == Active && s.idempotency == map[]
    ensures var r, alert := Perform(s, c), ID(c.serial, 2);
            && r.answer.Created? && r.answer.transaction == NewTransaction(c, cmd)
            && alert in IDsOf(r.answer.alerts)
            && alert in r.state.alerts && r.state.alerts[alert].status == AlertOpen && r.state.cases == s.cases
  {
    var t := NewTransaction(c, cmd);
    var alerts := NewAlerts(c, t, Findings(t));
    LargeIsFlagged(c, t);
    assert alerts[0] in (set a | a in alerts);
    WithAlertsHolds(s.alerts, alerts);
  }

  lemma {:induction false} Opening(s: State)
    requires ALERT in s.alerts && s.alerts[ALERT].status == AlertOpen && s.cases == map[]
    ensures var t := Perform(s, OPENING).state;
            && CASE in t.cases && t.cases[CASE].status == CaseOpen && t.cases[CASE].alert == ALERT
            && t.alerts == s.alerts
  {
    TrimKeeps("t");
    TrimKeeps("clerk");
  }

  lemma {:induction false} Closing(s: State)
    requires ALERT in s.alerts && s.alerts[ALERT].status == AlertOpen
    ensures var t := Perform(s, CLOSURE).state;
            ALERT in t.alerts && t.alerts[ALERT].status == AlertClosed && t.cases == s.cases
  {
    TrimKeeps("clerk");
    TrimKeeps("done");
  }

  // ---------- growing a run ----------

  predicate Before(history: seq<Call>, serial: nat) {
    FreshIDs(history) && forall i :: 0 <= i < |history| ==> history[i].serial < serial
  }

  lemma {:induction false} OneMore(s: State, history: seq<Call>, c: Call)
    requires Before(history, c.serial)
    ensures Before(history + [c], c.serial + 1)
    ensures Exec(s, history + [c]) == Perform(Exec(s, history), c).state
  {
    Exec1(s, history, c);
  }

  lemma {:induction false} AnswerOfLast(history: seq<Call>, c: Call)
    ensures AnswerAt(history + [c], |history|) == Perform(Exec(EMPTY, history), c).answer
  {
    assert (history + [c])[..|history|] == history;
  }

  lemma {:induction false} AnswerOfEarlier(history: seq<Call>, c: Call, k: nat)
    requires k < |history|
    ensures AnswerAt(history + [c], k) == AnswerAt(history, k)
  {
    assert (history + [c])[..k] == history[..k];
  }

  ghost predicate Approved(s: State) {
    CUSTOMER in s.customers && s.customers[CUSTOMER].status == Active && s.idempotency == map[] && s.cases == map[]
  }

  lemma {:induction false} ApprovedFrom(s: State) returns (history: seq<Call>)
    requires s.idempotency == map[] && s.cases == map[]
    ensures |history| == 2 && Before(history, 2) && Approved(Exec(s, history))
  {
    var one := [] + [SUBMISSION];
    history := one + [APPROVAL];
    OneMore(s, [], SUBMISSION);
    OneMore(s, one, APPROVAL);
    Submitting(s);
    Approving(Exec(s, one));
  }

  /** The third call ingested a flagged payment, whose alert is open. */
  ghost predicate Paid(history: seq<Call>, at: Time) {
    && |history| == 3 && Before(history, 3) && history[2] == Payment(2, at)
    && AnswerAt(history, 2).Created? && AnswerAt(history, 2).transaction == NewTransaction(history[2], Command(at))
    && ALERT in IDsOf(AnswerAt(history, 2).alerts)
    && var s := Exec(EMPTY, history);
       ALERT in s.alerts && s.alerts[ALERT].status == AlertOpen && s.cases == map[]
  }

  lemma {:induction false} PaidRun(at: Time) returns (history: seq<Call>)
    requires at != ZERO_TIME
    ensures Paid(history, at)
  {
    var two := ApprovedFrom(EMPTY);
    history := two + [Payment(2, at)];
    CommandIsNormal(at);
    Paying(Exec(EMPTY, two), Payment(2, at), Command(at));
    OneMore(EMPTY, two, Payment(2, at));
    AnswerOfLast(two, Payment(2, at));
  }

  // ---------- the witnesses ----------

  /** Some run ends in an unresolved case whose alert was closed directly, so that it stays unresolved for good. */
  lemma {:induction false} OrphanAppears() returns (history: seq<Call>, case_: ID)
    ensures FreshIDs(history)
    ensures var s := Exec(EMPTY, history);
            && case_ in s.cases && s.cases[case_].status == CaseOpen
            && s.cases[case_].alert in s.alerts && s.alerts[s.cases[case_].alert].status == AlertClosed
  {
    var three := PaidRun(1000);
    var four := three + [OPENING];
    history, case_ := four + [CLOSURE], CASE;
    OneMore(EMPTY, three, OPENING);
    OneMore(EMPTY, four, CLOSURE);
    Opening(Exec(EMPTY, three));
    Closing(Exec(EMPTY, four));
  }

  /** Some replay is not the original response: its alert was closed in between. */
  lemma {:induction false} ReplayDiffers() returns (history: seq<Call>, i: nat, j: nat)
    ensures FreshIDs(history) && i < j < |history| && history[i].request == history[j].request
    ensures AnswerAt(history, i).Created? && AnswerAt(history, j).Replayed?
    ensures AnswerAt(history, j).transaction == AnswerAt(history, i).transaction
    ensures AnswerAt(history, j).alerts != AnswerAt(history, i).alerts
  {
    var three := PaidRun(1000);
    var four := three + [CLOSURE];
    history, i, j := four + [Payment(5, 1000)], 2, 4;
    OneMore(EMPTY, three, CLOSURE);
    OneMore(EMPTY, four, Payment(5, 1000));
    Closing(Exec(EMPTY, three));
    AnswerOfEarlier(three, CLOSURE, 2);
    AnswerOfEarlier(four, Payment(5, 1000), 2);
    CommandIsNormal(1000);
    assert history[..4] == four;
    ReplayIsOriginalIff(history, 2, 4);
  }

  lemma {:induction false} PaidAtZero(history: seq<Call>, at: Time)
    requires Paid(history, at) && 0 < at < 1000
    ensures AnswerAt(history, 2).transaction.occurredAt == ZERO_TIME
  {
    StoredAtZero(history[2], Command(at));
  }

  lemma {:induction false} StoredAtZero(c: Call, cmd: IngestCommand)
    requires 0 < cmd.occurredAt < 1000
    ensures NewTransaction(c, cmd).occurredAt == ZERO_TIME
  {
    assert cmd.occurredAt % 1000 == cmd.occurredAt;
  }

  lemma {:induction false} PaidStays(history: seq<Call>, at: Time, c: Call)
    requires Paid(history, at) && c.serial == 3
    ensures FreshIDs(history + [c]) && (history + [c])[2] == Payment(2, at) && (history + [c])[3] == c
    ensures AnswerAt(history + [c], 2) == AnswerAt(history, 2)
  {
    OneMore(EMPTY, history, c);
    AnswerOfEarlier(history, c, 2);
  }

  /**
   A payment timed within a microsecond of the zero time is stored, but with the zero time, and
   refused when sent again as stored.
   */
  lemma {:induction false} ZeroTimeIsReached(at: Time) returns (history: seq<Call>)
    requires 0 < at < 1000
    ensures FreshIDs(history) && |history| == 4
    ensures AnswerAt(history, 2).Created? && AnswerAt(history, 2).transaction.occurredAt == ZERO_TIME
    ensures history[3].request == Ingest(Resubmitted(AnswerAt(history, 2).transaction, "clerk"))
    ensures AnswerAt(history, 3) == Failed(InvalidTransaction)
  {
    var three := PaidRun(at);
    PaidAtZero(three, at);
    var request := Ingest(Resubmitted(AnswerAt(three, 2).transaction, "clerk"));
    history := three + [Call(3, 4, request)];
    PaidStays(three, at, Call(3, 4, request));
    TrimKeeps("clerk");
    ResubmissionReplaysIff(history, 2, 3, "clerk");
  }
}
