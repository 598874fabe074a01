/**
 Screening one customer: every subject is screened, and runs, matches, inbox notifications,
 outbox messages and audit events are built up in nested loops before one save.
 */
module Fanout {
  import opened Durations
  import opened Domain

  datatype Candidate = Candidate(listType: ListType, name: string, score: int)

  /** What the provider returned for one subject, or None for an error. */
  type Reply = Option<seq<Candidate>>

  datatype Owner = Owner(id: ID, fullName: string)

  datatype Subject = Subject(kind: SubjectKind, id: ID, name: string)

  datatype Run = Run(id: ID, customer: ID, subject: Subject, createdBy: string, createdAt: Time)

  datatype Notification = Notification(id: ID, customer: ID, match_: ID, listType: ListType, createdAt: Time)

  datatype Channel = Webhook | Email

  datatype Destination = Destination(channel: Channel, address: string)

  datatype OutboxMessage = OutboxMessage(id: ID, notification: ID, destination: Destination, createdAt: Time)

  /** The five slices, and how many identifiers building them took. */
  datatype Batch = Batch(
    taken: nat, runs: seq<Run>, matches: seq<Match>, notifications: seq<Notification>,
    outbox: seq<OutboxMessage>, events: seq<Event>)

  datatype Context = Context(request: nat, customer: ID, actor: string, now: Time, destinations: seq<Destination>)

  const EMPTY := Batch(0, [], [], [], [], [])

  function Subjects(customer: ID, legalName: string, owners: seq<Owner>): (subjects: seq<Subject>)
    ensures |subjects| == 1 + |owners|
  {
    [Subject(CustomerSubject, customer, legalName)] +
    seq(|owners|, i requires 0 <= i < |owners| => Subject(BeneficialOwner, owners[i].id, owners[i].fullName))
  }

  /** The webhook, when one is configured, before the email recipients. */
  function Destinations(webhook: string, recipients: seq<string>): (d: seq<Destination>)
    ensures |d| == |recipients| + (if webhook != "" then 1 else 0)
  {
    (if webhook != "" then [Destination(Webhook, webhook)] else []) +
    seq(|recipients|, i requires 0 <= i < |recipients| => Destination(Email, recipients[i]))
  }

  predicate Lists(ds: seq<Destination>, webhook: string, recipients: seq<string>) {
    var skip := if webhook != "" then 1 else 0;
    && |ds| == skip + |recipients|
    && (webhook != "" ==> ds[0] == Destination(Webhook, webhook))
    && forall i :: 0 <= i < |recipients| ==> ds[skip + i] == Destination(Email, recipients[i])
  }

  lemma {:induction false} DestinationsListed(webhook: string, recipients: seq<string>)
    ensures Lists(Destinations(webhook, recipients), webhook, recipients)
  {
  }

  // ---------- what the loops build ----------

  function AddMessage(b: Batch, ctx: Context, notification: ID, d: Destination): Batch {
    b.(taken := b.taken + 1,
       outbox := b.outbox + [OutboxMessage(ID(ctx.request, b.taken), notification, d, ctx.now)])
  }

  function AddMessages(b: Batch, ctx: Context, notification: ID, ds: seq<Destination>): Batch {
    if ds == [] then b
    else AddMessage(AddMessages(b, ctx, notification, ds[..|ds| - 1]), ctx, notification, ds[|ds| - 1])
  }

  function NewMatch(b: Batch, ctx: Context, s: Subject, run: ID, c: Candidate): Match {
    Match(ID(ctx.request, b.taken), run, ctx.customer, s.kind, s.id, s.name, c.listType, c.name, c.score,
          Potential, ctx.now, "", None, "")
  }

  function AddCandidate(b: Batch, ctx: Context, s: Subject, run: ID, c: Candidate): Batch {
    var m := NewMatch(b, ctx, s, run, c);
    var n := Notification(ID(ctx.request, b.taken + 1), ctx.customer, m.id, c.listType, ctx.now);
    AddMessages(b.(taken := b.taken + 2, matches := b.matches + [m], notifications := b.notifications + [n]),
                ctx, n.id, ctx.destinations)
  }

  function AddCandidates(b: Batch, ctx: Context, s: Subject, run: ID, cs: seq<Candidate>): Batch {
    if cs == [] then b else AddCandidate(AddCandidates(b, ctx, s, run, cs[..|cs| - 1]), ctx, s, run, cs[|cs| - 1])
  }

  function NewRun(b: Batch, ctx: Context, s: Subject): Run {
    Run(ID(ctx.request, b.taken), ctx.customer, s, ctx.actor, ctx.now)
  }

  function AddSubject(b: Batch, ctx: Context, s: Subject, cs: seq<Candidate>): Batch {
    var run := NewRun(b, ctx, s);
    var b' := AddCandidates(b.(taken := b.taken + 1, runs := b.runs + [run]), ctx, s, run.id, cs);
    b'.(taken := b'.taken + 1,
        events := b'.events + [Event(ID(ctx.request, b'.taken), CustomerAggregate, ctx.customer, ctx.actor, ctx.now,
                                     ScreeningCompleted(run.id, s.kind, s.id, |cs|))])
  }

  /** The batch for a list of subjects, or None once the provider fails for one of them. */
  function Build(ctx: Context, subjects: seq<Subject>, replies: seq<Reply>): Option<Batch>
    requires |replies| == |subjects|
  {
    if subjects == [] then Some(EMPTY)
    else
      var n := |subjects| - 1;
      var before := Build(ctx, subjects[..n], replies[..n]);
      if before.None? || replies[n].None? then None
      else Some(AddSubject(before.value, ctx, subjects[n], replies[n].value))
  }

  // ---------- what the batch is ----------

  function AllCandidates(replies: seq<Reply>): seq<Candidate> {
    if replies == [] then []
    else
      var n := |replies| - 1;
      AllCandidates(replies[..n]) + (if replies[n].Some? then replies[n].value else [])
  }

  /** For each of those candidates, which subject it was found for. */
  function FoundFor(replies: seq<Reply>): (owners: seq<nat>)
    ensures |owners| == |AllCandidates(replies)|
    ensures forall k :: 0 <= k < |owners| ==> owners[k] < |replies|
  {
    if replies == [] then []
    else
      var n := |replies| - 1;
      FoundFor(replies[..n]) + (if replies[n].Some? then seq(|replies[n].value|, _ => n) else [])
  }

  /** Rows of the messages for match i start at i times the number of destinations. */
  function Row(i: nat, width: nat): nat {
    i * width
  }

  lemma {:induction false} RowStep(i: nat, width: nat)
    ensures Row(i + 1, width) == Row(i, width) + width
  {
  }

  lemma {:induction false} RowBefore(i: nat, count: nat, width: nat)
    requires i < count
    ensures Row(i, width) + width <= Row(count, width)
  {
    assert (count - i - 1) * width >= 0;
  }

  /** One message per notification and destination, grouped by notification. */
  ghost predicate MessagesLinked(b: Batch, ds: seq<Destination>) {
    && |b.outbox| == Row(|b.notifications|, |ds|)
    && (forall i, j :: 0 <= i < |b.notifications| && 0 <= j < |ds| ==> MessageFor(b, ds, i, j))
  }

  ghost predicate MessageFor(b: Batch, ds: seq<Destination>, i: nat, j: nat)
    requires i < |b.notifications| && j < |ds|
  {
    var k := Row(i, |ds|) + j;
    k < |b.outbox| && b.outbox[k].notification == b.notifications[i].id && b.outbox[k].destination == ds[j]
  }

  /** One notification per match, and every match of a run of this batch. */
  ghost predicate MatchesLinked(b: Batch, customer: ID) {
    && |b.notifications| == |b.matches|
    && (forall i :: 0 <= i < |b.matches| ==>
          && b.notifications[i].match_ == b.matches[i].id
          && b.matches[i].customer == customer && b.matches[i].status == Potential
          && RunListed(b.runs, b.matches[i].run))
  }

  ghost predicate Linked(b: Batch, ctx: Context) {
    MatchesLinked(b, ctx.customer) && MessagesLinked(b, ctx.destinations)
  }

  predicate RunListed(runs: seq<Run>, id: ID) {
    exists i :: 0 <= i < |runs| && runs[i].id == id
  }

  /** Identifiers of the matches come from this request and grow along the slice, so they are distinct and fresh. */
  ghost predicate MatchIDsFresh(b: Batch, ctx: Context) {
    && (forall i :: 0 <= i < |b.matches| ==>
          b.matches[i].id.ID? && b.matches[i].id.request == ctx.request && b.matches[i].id.index < b.taken)
    && (forall i, j :: 0 <= i < j < |b.matches| ==> b.matches[i].id.index < b.matches[j].id.index)
  }

  lemma {:induction false} AddMessagesShape(b: Batch, ctx: Context, notification: ID, ds: seq<Destination>)
    ensures var b' := AddMessages(b, ctx, notification, ds);
            && b' == b.(taken := b.taken + |ds|, outbox := b'.outbox)
            && |b'.outbox| == |b.outbox| + |ds|
            && b.outbox <= b'.outbox
            && (forall k :: |b.outbox| <= k < |b'.outbox| ==>
                  b'.outbox[k].notification == notification && b'.outbox[k].destination == ds[k - |b.outbox|])
  {
    if ds != [] {
      AddMessagesShape(b, ctx, notification, ds[..|ds| - 1]);
    }
  }

  lemma {:induction false} AddedMessagesLink(b: Batch, b': Batch, n: Notification, ds: seq<Destination>)
    requires MessagesLinked(b, ds)
    requires b'.notifications == b.notifications + [n]
    requires b.outbox <= b'.outbox && |b'.outbox| == |b.outbox| + |ds|
    requires forall k :: |b.outbox| <= k < |b'.outbox| ==>
               b'.outbox[k].notification == n.id && b'.outbox[k].destination == ds[k - |b.outbox|]
    ensures MessagesLinked(b', ds)
  {
    RowStep(|b.notifications|, |ds|);
    forall i, j | 0 <= i < |b'.notifications| && 0 <= j < |ds| ensures MessageFor(b', ds, i, j) {
      if i < |b.notifications| {
        RowBefore(i, |b.notifications|, |ds|);
        assert MessageFor(b, ds, i, j);
      }
    }
  }

  lemma {:induction false} AddCandidateLinks(b: Batch, ctx: Context, s: Subject, run: ID, c: Candidate)
    requires Linked(b, ctx) && MatchIDsFresh(b, ctx) && RunListed(b.runs, run)
    ensures var b' := AddCandidate(b, ctx, s, run, c);
            && Linked(b', ctx) && MatchIDsFresh(b', ctx)
            && b'.runs == b.runs && b'.events == b.events && b'.taken > b.taken
            && b'.matches == b.matches + [NewMatch(b, ctx, s, run, c)]
  {
    var m := NewMatch(b, ctx, s, run, c);
    var n := Notification(ID(ctx.request, b.taken + 1), ctx.customer, m.id, c.listType, ctx.now);
    var mid := b.(taken := b.taken + 2, matches := b.matches + [m], notifications := b.notifications + [n]);
    AddMessagesShape(mid, ctx, n.id, ctx.destinations);
    AddedMessagesLink(b, AddCandidate(b, ctx, s, run, c), n, ctx.destinations);
  }

  lemma {:induction false} AddCandidatesLinks(b: Batch, ctx: Context, s: Subject, run: ID, cs: seq<Candidate>)
    requires Linked(b, ctx) && MatchIDsFresh(b, ctx) && RunListed(b.runs, run)
    ensures Linked(AddCandidates(b, ctx, s, run, cs), ctx) && MatchIDsFresh(AddCandidates(b, ctx, s, run, cs), ctx)
    ensures AddCandidates(b, ctx, s, run, cs).runs == b.runs && AddCandidates(b, ctx, s, run, cs).events == b.events
    ensures AddCandidates(b, ctx, s, run, cs).taken >= b.taken
  {
    if cs != [] {
      AddCandidatesLinks(b, ctx, s, run, cs[..|cs| - 1]);
      AddCandidateLinks(AddCandidates(b, ctx, s, run, cs[..|cs| - 1]), ctx, s, run, cs[|cs| - 1]);
    }
  }

  lemma {:induction false} AddCandidatesMatches(b: Batch, ctx: Context, s: Subject, run: ID, cs: seq<Candidate>)
    ensures var ms := AddCandidates(b, ctx, s, run, cs).matches;
            && |ms| == |b.matches| + |cs| && b.matches <= ms
            && (forall k :: |b.matches| <= k < |ms| ==> IsMatchOf(ms[k], run, s, cs[k - |b.matches|]))
  {
    if cs != [] {
      var before := AddCandidates(b, ctx, s, run, cs[..|cs| - 1]);
      AddCandidatesMatches(b, ctx, s, run, cs[..|cs| - 1]);
      var m := NewMatch(before, ctx, s, run, cs[|cs| - 1]);
      var n := Notification(ID(ctx.request, before.taken + 1), ctx.customer, m.id, cs[|cs| - 1].listType, ctx.now);
      AddMessagesShape(before.(taken := before.taken + 2, matches := before.matches + [m],
                               notifications := before.notifications + [n]),
                       ctx, n.id, ctx.destinations);
    }
  }

  predicate IsMatchOf(m: Match, run: ID, s: Subject, c: Candidate) {
    && m.run == run && m.subjectKind == s.kind && m.subjectID == s.id && m.queryName == s.name
    && m.listType == c.listType && m.matchedName == c.name && m.score == c.score
  }

  /** A run and an event for each subject. */
  ghost predicate RunsComplete(b: Batch, ctx: Context, subjects: seq<Subject>, replies: seq<Reply>)
    requires |replies| == |subjects|
  {
    && |b.runs| == |b.events| == |subjects|
    && (forall i :: 0 <= i < |subjects| ==>
          && replies[i].Some?
          && b.runs[i].subject == subjects[i] && b.runs[i].customer == ctx.customer && b.runs[i].createdBy == ctx.actor
          && b.events[i].aggregate == ctx.customer && b.events[i].actor == ctx.actor
          && b.events[i].occurredAt == ctx.now
          && b.events[i].detail ==
             ScreeningCompleted(b.runs[i].id, subjects[i].kind, subjects[i].id, |replies[i].value|))
  }

  /** A match for each candidate, in order, each in the run of the subject it was found for. */
  ghost predicate MatchesComplete(b: Batch, subjects: seq<Subject>, replies: seq<Reply>)
    requires |replies| == |subjects| == |b.runs|
  {
    && |b.matches| == |AllCandidates(replies)|
    && (forall k :: 0 <= k < |b.matches| ==>
          var i := FoundFor(replies)[k];
          IsMatchOf(b.matches[k], b.runs[i].id, subjects[i], AllCandidates(replies)[k]))
  }

  ghost predicate Complete(b: Batch, ctx: Context, subjects: seq<Subject>, replies: seq<Reply>)
    requires |replies| == |subjects|
  {
    RunsComplete(b, ctx, subjects, replies) && MatchesComplete(b, subjects, replies)
  }

  function WithRun(b: Batch, ctx: Context, s: Subject): Batch {
    b.(taken := b.taken + 1, runs := b.runs + [NewRun(b, ctx, s)])
  }

  lemma {:induction false} WithRunLinks(b: Batch, ctx: Context, s: Subject)
    requires Linked(b, ctx) && MatchIDsFresh(b, ctx)
    ensures Linked(WithRun(b, ctx, s), ctx) && MatchIDsFresh(WithRun(b, ctx, s), ctx)
    ensures RunListed(WithRun(b, ctx, s).runs, NewRun(b, ctx, s).id)
  {
    var mid := WithRun(b, ctx, s);
    assert mid.runs[|b.runs|] == NewRun(b, ctx, s);
    forall i | 0 <= i < |b.matches| ensures RunListed(mid.runs, b.matches[i].run) {
      assert RunListed(b.runs, b.matches[i].run);
      var k :| 0 <= k < |b.runs| && b.runs[k].id == b.matches[i].run;
      assert mid.runs[k].id == b.matches[i].run;
    }
    forall i, j | 0 <= i < |mid.notifications| && 0 <= j < |ctx.destinations|
        ensures MessageFor(mid, ctx.destinations, i, j) {
      assert MessageFor(b, ctx.destinations, i, j);
    }
  }

  lemma {:induction false} AddSubjectLinks(b: Batch, ctx: Context, s: Subject, cs: seq<Candidate>)
    requires Linked(b, ctx) && MatchIDsFresh(b, ctx)
    ensures Linked(AddSubject(b, ctx, s, cs), ctx) && MatchIDsFresh(AddSubject(b, ctx, s, cs), ctx)
  {
    WithRunLinks(b, ctx, s);
    AddCandidatesLinks(WithRun(b, ctx, s), ctx, s, NewRun(b, ctx, s).id, cs);
    var b1, b2 := AddCandidates(WithRun(b, ctx, s), ctx, s, NewRun(b, ctx, s).id, cs), AddSubject(b, ctx, s, cs);
    forall i, j | 0 <= i < |b2.notifications| && 0 <= j < |ctx.destinations|
        ensures MessageFor(b2, ctx.destinations, i, j) {
      assert MessageFor(b1, ctx.destinations, i, j);
    }
  }

  lemma {:induction false} AddSubjectEffect(b: Batch, ctx: Context, s: Subject, cs: seq<Candidate>)
    requires Linked(b, ctx) && MatchIDsFresh(b, ctx)
    ensures var b', run := AddSubject(b, ctx, s, cs), NewRun(b, ctx, s);
            && b'.runs == b.runs + [run]
            && |b'.events| == |b.events| + 1 && b.events <= b'.events
            && b'.events[|b.events|].aggregate == ctx.customer && b'.events[|b.events|].actor == ctx.actor
            && b'.events[|b.events|].occurredAt == ctx.now
            && b'.events[|b.events|].detail == ScreeningCompleted(run.id, s.kind, s.id, |cs|)
            && |b'.matches| == |b.matches| + |cs| && b.matches <= b'.matches
            && (forall k :: |b.matches| <= k < |b'.matches| ==>
                IsMatchOf(b'.matches[k], run.id, s, cs[k - |b.matches|]))
  {
    WithRunLinks(b, ctx, s);
    AddCandidatesLinks(WithRun(b, ctx, s), ctx, s, NewRun(b, ctx, s).id, cs);
    AddCandidatesMatches(WithRun(b, ctx, s), ctx, s, NewRun(b, ctx, s).id, cs);
  }

  lemma {:induction false} OneMoreReply(replies: seq<Reply>, cs: seq<Candidate>)
    ensures AllCandidates(replies + [Some(cs)]) == AllCandidates(replies) + cs
    ensures FoundFor(replies + [Some(cs)]) == FoundFor(replies) + seq(|cs|, _ => |replies|)
  {
    assert (replies + [Some(cs)])[..|replies|] == replies;
  }

  lemma {:induction false} AddSubjectComplete(
      b: Batch, ctx: Context, subjects: seq<Subject>, replies: seq<Reply>, s: Subject, cs: seq<Candidate>)
    requires |replies| == |subjects|
    requires Complete(b, ctx, subjects, replies) && Linked(b, ctx) && MatchIDsFresh(b, ctx)
    ensures Complete(AddSubject(b, ctx, s, cs), ctx, subjects + [s], replies + [Some(cs)])
  {
    var b', run := AddSubject(b, ctx, s, cs), NewRun(b, ctx, s);
    AddSubjectEffect(b, ctx, s, cs);
    OneMoreReply(replies, cs);
    var subjects', replies' := subjects + [s], replies + [Some(cs)];
    forall k | 0 <= k < |b'.matches|
      ensures var i := FoundFor(replies')[k];
              IsMatchOf(b'.matches[k], b'.runs[i].id, subjects'[i], AllCandidates(replies')[k])
    {
      if k < |b.matches| {
        assert b'.matches[k] == b.matches[k];
      } else {
        assert IsMatchOf(b'.matches[k], run.id, s, cs[k - |b.matches|]);
      }
    }
  }

  // ---------- identifiers of the slices ----------

  /** Identifiers drawn by this request, in growing order. */
  predicate Growing(ids: seq<ID>, request: nat, below: nat) {
    && (forall i :: 0 <= i < |ids| ==> ids[i].ID? && ids[i].request == request && ids[i].index < below)
    && (forall i, j :: 0 <= i < j < |ids| ==> ids[i].index < ids[j].index)
  }

  function RunIDs(runs: seq<Run>): seq<ID> {
    seq(|runs|, i requires 0 <= i < |runs| => runs[i].id)
  }

  function NotificationIDs(notifications: seq<Notification>): seq<ID> {
    seq(|notifications|, i requires 0 <= i < |notifications| => notifications[i].id)
  }

  function MessageIDs(outbox: seq<OutboxMessage>): seq<ID> {
    seq(|outbox|, i requires 0 <= i < |outbox| => outbox[i].id)
  }

  /** So no two runs, no two notifications and no two messages share an identifier. */
  ghost predicate IDsGrow(b: Batch, ctx: Context) {
    && Growing(RunIDs(b.runs), ctx.request, b.taken)
    && Growing(NotificationIDs(b.notifications), ctx.request, b.taken)
    && Growing(MessageIDs(b.outbox), ctx.request, b.taken)
  }

  lemma {:induction false} GrowingOn(ids: seq<ID>, request: nat, from: nat, index: nat, below: nat)
    requires Growing(ids, request, from) && from <= index < below
    ensures Growing(ids, request, below) && Growing(ids + [ID(request, index)], request, below)
  {
  }

  lemma {:induction false} AddMessageGrows(b: Batch, ctx: Context, notification: ID, d: Destination)
    requires IDsGrow(b, ctx)
    ensures IDsGrow(AddMessage(b, ctx, notification, d), ctx)
  {
    var b' := AddMessage(b, ctx, notification, d);
    assert MessageIDs(b'.outbox) == MessageIDs(b.outbox) + [ID(ctx.request, b.taken)];
    GrowingOn(MessageIDs(b.outbox), ctx.request, b.taken, b.taken, b'.taken);
  }

  lemma {:induction false} AddMessagesGrow(b: Batch, ctx: Context, notification: ID, ds: seq<Destination>)
    requires IDsGrow(b, ctx)
    ensures IDsGrow(AddMessages(b, ctx, notification, ds), ctx)
  {
    if ds != [] {
      AddMessagesGrow(b, ctx, notification, ds[..|ds| - 1]);
      AddMessageGrows(AddMessages(b, ctx, notification, ds[..|ds| - 1]), ctx, notification, ds[|ds| - 1]);
    }
  }

  lemma {:induction false} AddCandidateGrows(b: Batch, ctx: Context, s: Subject, run: ID, c: Candidate)
    requires IDsGrow(b, ctx)
    ensures IDsGrow(AddCandidate(b, ctx, s, run, c), ctx)
  {
    var m := NewMatch(b, ctx, s, run, c);
    var n := Notification(ID(ctx.request, b.taken + 1), ctx.customer, m.id, c.listType, ctx.now);
    var mid := b.(taken := b.taken + 2, matches := b.matches + [m], notifications := b.notifications + [n]);
    assert NotificationIDs(mid.notifications) == NotificationIDs(b.notifications) + [n.id];
    GrowingOn(NotificationIDs(b.notifications), ctx.request, b.taken, b.taken + 1, mid.taken);
    AddMessagesGrow(mid, ctx, n.id, ctx.destinations);
  }

  lemma {:induction false} AddCandidatesGrow(b: Batch, ctx: Context, s: Subject, run: ID, cs: seq<Candidate>)
    requires IDsGrow(b, ctx)
    ensures IDsGrow(AddCandidates(b, ctx, s, run, cs), ctx)
  {
    if cs != [] {
      AddCandidatesGrow(b, ctx, s, run, cs[..|cs| - 1]);
      AddCandidateGrows(AddCandidates(b, ctx, s, run, cs[..|cs| - 1]), ctx, s, run, cs[|cs| - 1]);
    }
  }

  lemma {:induction false} AddSubjectGrows(b: Batch, ctx: Context, s: Subject, cs: seq<Candidate>)
    requires IDsGrow(b, ctx)
    ensures IDsGrow(AddSubject(b, ctx, s, cs), ctx)
  {
    var mid, run := WithRun(b, ctx, s), NewRun(b, ctx, s);
    assert RunIDs(mid.runs) == RunIDs(b.runs) + [run.id];
    GrowingOn(RunIDs(b.runs), ctx.request, b.taken, b.taken, mid.taken);
    AddCandidatesGrow(mid, ctx, s, run.id, cs);
  }

  lemma {:induction false} IdentifiersGrow(ctx: Context, subjects: seq<Subject>, replies: seq<Reply>)
    requires |replies| == |subjects| && Build(ctx, subjects, replies).Some?
    ensures IDsGrow(Build(ctx, subjects, replies).value, ctx)
    decreases |subjects|
  {
    if subjects != [] {
      var n := |subjects| - 1;
      IdentifiersGrow(ctx, subjects[..n], replies[..n]);
      AddSubjectGrows(Build(ctx, subjects[..n], replies[..n]).value, ctx, subjects[n], replies[n].value);
    }
  }

  lemma {:induction false} BatchExistsIff(ctx: Context, subjects: seq<Subject>, replies: seq<Reply>)
    requires |replies| == |subjects|
    ensures Build(ctx, subjects, replies).Some? <==> forall i :: 0 <= i < |replies| ==> replies[i].Some?
    decreases |subjects|
  {
    if subjects != [] {
      var n := |subjects| - 1;
      BatchExistsIff(ctx, subjects[..n], replies[..n]);
      assert replies == replies[..n] + [replies[n]];
    }
  }

  lemma {:induction false} BatchContents(ctx: Context, subjects: seq<Subject>, replies: seq<Reply>)
    requires |replies| == |subjects| && Build(ctx, subjects, replies).Some?
    ensures var b := Build(ctx, subjects, replies).value;
            Complete(b, ctx, subjects, replies) && Linked(b, ctx) && MatchIDsFresh(b, ctx)
    decreases |subjects|
  {
    if subjects != [] {
      var n := |subjects| - 1;
      BatchContents(ctx, subjects[..n], replies[..n]);
      assert subjects == subjects[..n] + [subjects[n]] && replies == replies[..n] + [replies[n]];
      var b := Build(ctx, subjects[..n], replies[..n]).value;
      AddSubjectComplete(b, ctx, subjects[..n], replies[..n], subjects[n], replies[n].value);
      AddSubjectLinks(b, ctx, subjects[n], replies[n].value);
    }
  }

  /**
   The fan-out is exact: a batch exists exactly when every screening succeeded, and then runs and
   events correspond one to one with the subjects, matches with the candidates, each in its own
   subject's run, notifications with the matches, and messages with the pairs of a notification and
   a destination; and no identifier is used twice.
   */
  lemma {:induction false} BatchIsExact(ctx: Context, subjects: seq<Subject>, replies: seq<Reply>)
    requires |replies| == |subjects|
    ensures Build(ctx, subjects, replies).Some? <==> forall i :: 0 <= i < |replies| ==> replies[i].Some?
    ensures Build(ctx, subjects, replies).Some? ==>
              var b := Build(ctx, subjects, replies).value;
              && Complete(b, ctx, subjects, replies) && Linked(b, ctx) && MatchIDsFresh(b, ctx) && IDsGrow(b, ctx)
              && |b.outbox| == |b.matches| * |ctx.destinations|
  {
    BatchExistsIff(ctx, subjects, replies);
    if Build(ctx, subjects, replies).Some? {
      BatchContents(ctx, subjects, replies);
      IdentifiersGrow(ctx, subjects, replies);
    }
  }

  /** Every row bears the customer, the instant and, through its match, the list it is about. */
  ghost predicate Attributed(b: Batch, ctx: Context) {
    && (forall i :: 0 <= i < |b.runs| ==> b.runs[i].createdAt == ctx.now)
    && |b.notifications| == |b.matches|
    && (forall i :: 0 <= i < |b.matches| ==>
          && b.matches[i].createdAt == ctx.now
          && b.notifications[i].customer == ctx.customer && b.notifications[i].listType == b.matches[i].listType
          && b.notifications[i].createdAt == ctx.now)
    && (forall i :: 0 <= i < |b.outbox| ==> b.outbox[i].createdAt == ctx.now)
    && (forall i :: 0 <= i < |b.events| ==> b.events[i].aggregateType == CustomerAggregate)
  }

  lemma {:induction false} MessagesAttributed(b: Batch, ctx: Context, notification: ID, ds: seq<Destination>)
    requires Attributed(b, ctx)
    ensures Attributed(AddMessages(b, ctx, notification, ds), ctx)
  {
    if ds != [] {
      MessagesAttributed(b, ctx, notification, ds[..|ds| - 1]);
    }
  }

  lemma {:induction false} CandidatesAttributed(b: Batch, ctx: Context, s: Subject, run: ID, cs: seq<Candidate>)
    requires Attributed(b, ctx)
    ensures Attributed(AddCandidates(b, ctx, s, run, cs), ctx)
  {
    if cs != [] {
      var before, c := AddCandidates(b, ctx, s, run, cs[..|cs| - 1]), cs[|cs| - 1];
      CandidatesAttributed(b, ctx, s, run, cs[..|cs| - 1]);
      var m := NewMatch(before, ctx, s, run, c);
      var n := Notification(ID(ctx.request, before.taken + 1), ctx.customer, m.id, c.listType, ctx.now);
      MessagesAttributed(before.(taken := before.taken + 2, matches := before.matches + [m],
                                 notifications := before.notifications + [n]), ctx, n.id, ctx.destinations);
    }
  }

  lemma {:induction false} BatchIsAttributed(ctx: Context, subjects: seq<Subject>, replies: seq<Reply>)
    requires |replies| == |subjects| && Build(ctx, subjects, replies).Some?
    ensures Attributed(Build(ctx, subjects, replies).value, ctx)
    decreases |subjects|
  {
    if subjects != [] {
      var n := |subjects| - 1;
      BatchIsAttributed(ctx, subjects[..n], replies[..n]);
      var b := Build(ctx, subjects[..n], replies[..n]).value;
      CandidatesAttributed(WithRun(b, ctx, subjects[n]), ctx, subjects[n], NewRun(b, ctx, subjects[n]).id,
                           replies[n].value);
    }
  }

  predicate Unreviewed(m: Match, customer: ID) {
    m.customer == customer && m.status == Potential && m.reviewedBy == "" && m.reviewedAt == None
        && m.dispositionReason == ""
  }

  predicate AllUnreviewed(ms: seq<Match>, customer: ID) {
    forall i :: 0 <= i < |ms| ==> Unreviewed(ms[i], customer)
  }

  lemma {:induction false} AddCandidateMatches(b: Batch, ctx: Context, s: Subject, run: ID, c: Candidate)
    ensures AddCandidate(b, ctx, s, run, c).matches == b.matches + [NewMatch(b, ctx, s, run, c)]
  {
    var m := NewMatch(b, ctx, s, run, c);
    var n := Notification(ID(ctx.request, b.taken + 1), ctx.customer, m.id, c.listType, ctx.now);
    AddMessagesShape(b.(taken := b.taken + 2, matches := b.matches + [m], notifications := b.notifications + [n]),
                     ctx, n.id, ctx.destinations);
  }

  lemma {:induction false} CandidatesArePotential(b: Batch, ctx: Context, s: Subject, run: ID, cs: seq<Candidate>)
    requires AllUnreviewed(b.matches, ctx.customer)
    ensures AllUnreviewed(AddCandidates(b, ctx, s, run, cs).matches, ctx.customer)
  {
    if cs != [] {
      CandidatesArePotential(b, ctx, s, run, cs[..|cs| - 1]);
      AddCandidateMatches(AddCandidates(b, ctx, s, run, cs[..|cs| - 1]), ctx, s, run, cs[|cs| - 1]);
    }
  }

  lemma {:induction false} MatchesAreNew(ctx: Context, subjects: seq<Subject>, replies: seq<Reply>)
    requires |replies| == |subjects| && Build(ctx, subjects, replies).Some?
    ensures AllUnreviewed(Build(ctx, subjects, replies).value.matches, ctx.customer)
    decreases |subjects|
  {
    if subjects != [] {
      var n := |subjects| - 1;
      MatchesAreNew(ctx, subjects[..n], replies[..n]);
      var b := Build(ctx, subjects[..n], replies[..n]).value;
      var run := NewRun(b, ctx, subjects[n]);
      CandidatesArePotential(b.(taken := b.taken + 1, runs := b.runs + [run]), ctx, subjects[n], run.id,
                             replies[n].value);
    }
  }

  /** Identifiers of the events grow along the slice too. */
  predicate EventsOrdered(b: Batch, ctx: Context) {
    && (forall i :: 0 <= i < |b.events| ==>
          b.events[i].id.ID? && b.events[i].id.request == ctx.request && b.events[i].id.index < b.taken
              && b.events[i].occurredAt == ctx.now)
    && (forall i, j :: 0 <= i < j < |b.events| ==> b.events[i].id.index < b.events[j].id.index)
  }

  lemma {:induction false} CandidatesAddNoEvents(b: Batch, ctx: Context, s: Subject, run: ID, cs: seq<Candidate>)
    ensures AddCandidates(b, ctx, s, run, cs).events == b.events && AddCandidates(b, ctx, s, run, cs).taken >= b.taken
  {
    if cs != [] {
      var before, c := AddCandidates(b, ctx, s, run, cs[..|cs| - 1]), cs[|cs| - 1];
      CandidatesAddNoEvents(b, ctx, s, run, cs[..|cs| - 1]);
      var m := NewMatch(before, ctx, s, run, c);
      var n := Notification(ID(ctx.request, before.taken + 1), ctx.customer, m.id, c.listType, ctx.now);
      AddMessagesShape(before.(taken := before.taken + 2, matches := before.matches + [m],
                               notifications := before.notifications + [n]),
                       ctx, n.id, ctx.destinations);
    }
  }

  lemma {:induction false} EventsInOrder(ctx: Context, subjects: seq<Subject>, replies: seq<Reply>)
    requires |replies| == |subjects| && Build(ctx, subjects, replies).Some?
    ensures EventsOrdered(Build(ctx, subjects, replies).value, ctx)
    decreases |subjects|
  {
    if subjects != [] {
      var n := |subjects| - 1;
      EventsInOrder(ctx, subjects[..n], replies[..n]);
      var b := Build(ctx, subjects[..n], replies[..n]).value;
      CandidatesAddNoEvents(WithRun(b, ctx, subjects[n]), ctx, subjects[n], NewRun(b, ctx, subjects[n]).id,
                            replies[n].value);
    }
  }

  // ---------- the code ----------

  /** The outcome of screening: the batch the loops build, or nothing. */
  predicate Screened(batch: Option<Batch>, ctx: Context, subjects: seq<Subject>, replies: seq<Reply>)
    requires |replies| == |subjects|
  {
    batch == Build(ctx, subjects, replies)
  }

  method ScreenSubjects(ctx: Context, webhook: string, recipients: seq<string>, subjects: seq<Subject>,
                        replies: seq<Reply>)
    returns (batch: Option<Batch>)
    requires |replies| == |subjects|
    requires ctx.destinations == Destinations(webhook, recipients)
    ensures Screened(batch, ctx, subjects, replies)
    ensures batch.Some? <==> forall i :: 0 <= i < |replies| ==> replies[i].Some?
    ensures batch.Some? ==> Complete(batch.value, ctx, subjects, replies) && Linked(batch.value, ctx)
  {
    var b := EMPTY;
    for i := 0 to |subjects|
      invariant Build(ctx, subjects[..i], replies[..i]) == Some(b)
    {
      assert subjects[..i + 1][..i] == subjects[..i] && replies[..i + 1][..i] == replies[..i];
      if replies[i].None? {
        FailurePersists(ctx, subjects, replies, i);
        return None;
      }
      var subject, candidates := subjects[i], replies[i].value;
      var run := Run(ID(ctx.request, b.taken), ctx.customer, subject, ctx.actor, ctx.now);
      var b' := ReportCandidates(ctx, webhook, recipients, subject, run.id, candidates,
                                 b.(taken := b.taken + 1, runs := b.runs + [run]));
      var event := Event(ID(ctx.request, b'.taken), CustomerAggregate, ctx.customer, ctx.actor, ctx.now,
                         ScreeningCompleted(run.id, subject.kind, subject.id, |candidates|));
      b := b'.(taken := b'.taken + 1, events := b'.events + [event]);
    }
    assert subjects[..|subjects|] == subjects && replies[..|replies|] == replies;
    BatchIsExact(ctx, subjects, replies);
    return Some(b);
  }

  /** The inner loop: a match, a notification and its messages for each candidate of one subject. */
  method ReportCandidates(
      ctx: Context, webhook: string, recipients: seq<string>, subject: Subject, run: ID, candidates: seq<Candidate>,
          start: Batch)
    returns (b: Batch)
    requires ctx.destinations == Destinations(webhook, recipients)
    ensures b == AddCandidates(start, ctx, subject, run, candidates)
  {
    DestinationsListed(webhook, recipients);
    b := start;
    for k := 0 to |candidates|
      invariant b == AddCandidates(start, ctx, subject, run, candidates[..k])
    {
      assert candidates[..k + 1][..k] == candidates[..k];
      var c := candidates[k];
      var m := Match(ID(ctx.request, b.taken), run, ctx.customer, subject.kind, subject.id, subject.name,
                     c.listType, c.name, c.score, Potential, ctx.now, "", None, "");
      var n := Notification(ID(ctx.request, b.taken + 1), ctx.customer, m.id, c.listType, ctx.now);
      b := b.(taken := b.taken + 2, matches := b.matches + [m], notifications := b.notifications + [n]);
      var taken, outbox := Enqueue(ctx, n.id, webhook, recipients, b.taken, b.outbox, b);
      b := b.(taken := taken, outbox := outbox);
    }
    assert candidates[..|candidates|] == candidates;
  }

  /** The messages for the first k destinations are queued. */
  ghost predicate Queued(b: Batch, ctx: Context, notification: ID, ds: seq<Destination>, k: nat, taken: nat,
                         outbox: seq<OutboxMessage>) {
    k <= |ds| && AddMessages(b, ctx, notification, ds[..k]) == b.(taken := taken, outbox := outbox)
  }

  lemma {:induction false} QueuedNext(b: Batch, ctx: Context, notification: ID, ds: seq<Destination>, k: nat,
                                      taken: nat, outbox: seq<OutboxMessage>)
    requires Queued(b, ctx, notification, ds, k, taken, outbox) && k < |ds|
    ensures Queued(b, ctx, notification, ds, k + 1, taken + 1,
                   outbox + [OutboxMessage(ID(ctx.request, taken), notification, ds[k], ctx.now)])
  {
    assert ds[..k + 1][..k] == ds[..k];
  }

  lemma {:induction false} QueuedNone(b: Batch, ctx: Context, notification: ID, ds: seq<Destination>)
    ensures Queued(b, ctx, notification, ds, 0, b.taken, b.outbox)
  {
  }

  lemma {:induction false} QueuedAll(
      b: Batch, ctx: Context, notification: ID, ds: seq<Destination>, taken: nat, outbox: seq<OutboxMessage>)
    requires Queued(b, ctx, notification, ds, |ds|, taken, outbox)
    ensures AddMessages(b, ctx, notification, ds) == b.(taken := taken, outbox := outbox)
  {
    assert ds[..|ds|] == ds;
  }

  method Enqueue(ctx: Context, notification: ID, webhook: string, recipients: seq<string>,
                 from: nat, queued: seq<OutboxMessage>, ghost b: Batch)
    returns (taken: nat, outbox: seq<OutboxMessage>)
    requires Lists(ctx.destinations, webhook, recipients)
    requires b.taken == from && b.outbox == queued
    ensures AddMessages(b, ctx, notification, ctx.destinations) == b.(taken := taken, outbox := outbox)
  {
    taken, outbox := from, queued;
    ghost var ds := ctx.destinations;
    ghost var sent := if webhook != "" then 1 else 0;
    QueuedNone(b, ctx, notification, ds);
    if webhook != "" {
      QueuedNext(b, ctx, notification, ds, 0, taken, outbox);
      outbox := outbox + [OutboxMessage(ID(ctx.request, taken), notification, Destination(Webhook, webhook), ctx.now)];
      taken := taken + 1;
    }
    taken, outbox := EnqueueEmails(ctx, notification, recipients, taken, outbox, b, sent);
    QueuedAll(b, ctx, notification, ds, taken, outbox);
  }

  method EnqueueEmails(ctx: Context, notification: ID, recipients: seq<string>,
                       from: nat, queued: seq<OutboxMessage>, ghost b: Batch, ghost sent: nat)
    returns (taken: nat, outbox: seq<OutboxMessage>)
    requires |ctx.destinations| == sent + |recipients|
    requires forall i :: 0 <= i < |recipients| ==> ctx.destinations[sent + i] == Destination(Email, recipients[i])
    requires Queued(b, ctx, notification, ctx.destinations, sent, from, queued)
    ensures Queued(b, ctx, notification, ctx.destinations, sent + |recipients|, taken, outbox)
  {
    taken, outbox := from, queued;
    for i := 0 to |recipients|
      invariant Queued(b, ctx, notification, ctx.destinations, sent + i, taken, outbox)
    {
      QueuedNext(b, ctx, notification, ctx.destinations, sent + i, taken, outbox);
      outbox := outbox + [OutboxMessage(ID(ctx.request, taken), notification,
                                        Destination(Email, recipients[i]), ctx.now)];
      taken := taken + 1;
    }
  }

  lemma {:induction false} FailurePersists(ctx: Context, subjects: seq<Subject>, replies: seq<Reply>, i: nat)
    requires |replies| == |subjects| && i < |replies| && replies[i].None?
    ensures Build(ctx, subjects, replies) == None
  {
    BatchIsExact(ctx, subjects, replies);
  }
}
