/**
  Delivering invitation mails. The handler runs once per push inside one transaction that locks the
  invitation; the mail leaves in the middle of it. Crashes and failed commits undo the transaction
  but not the mail. The mail provider drops requests whose idempotency key it has seen.
 */
module InvitationDelivery {
  import opened Numbers
  import opened Wrappers
  import opened Text
  import opened Uuids
  import opened Clock
  import opened Invitations
  import M = Messaging
  import W = Worker

  datatype Mail = Mail(key: string, invitationId: Uuid, generation: int, to: string)

  datatype State = State(invitations: map<Uuid, Invitation>, workspaces: map<Uuid, string>, mails: seq<Mail>)

  const INITIAL := State(map[], map[], [])

  /** What the mail adapter reports; a failed send may still have reached the provider. */
  datatype SendReport = Sent | RetryableError(reached: bool) | PermanentError(reached: bool)

  /** Everything the environment decides during one push. */
  datatype Choice = Choice(now: Time, linkIssued: bool, report: SendReport, later: Time, commit: bool)

  datatype Outcome = Acknowledged | DeliveredNow | FailedNow | RetryRequested | RepositoryError

  function IdempotencyKey(id: Uuid, generation: int): string {
    "workspace-invitation/" + Format(id) + "/" + Decimal(generation)
  }

  function Keys(mails: seq<Mail>): set<string> {
    set i | 0 <= i < |mails| :: mails[i].key
  }

  predicate Reached(report: SendReport) {
    report.Sent? || report.reached
  }

  function Post(mails: seq<Mail>, mail: Mail, report: SendReport): seq<Mail> {
    if Reached(report) && mail.key !in Keys(mails) then mails + [mail] else mails
  }

  predicate IsFinal(attempt: Option<nat>, maxAttempts: nat) {
    attempt.Some? && attempt.value >= maxAttempts
  }

  function Classify(report: SendReport, final: bool): Failure {
    if final then Exhausted else if report.PermanentError? then Permanent else Retryable
  }

  /** Write down what the adapter reported. */
  function Record(i: Invitation, generation: int, final: bool, report: SendReport, at: Time): (Invitation, Outcome) {
    if report.Sent? then
      var (j, u) := SuccessData(i, generation, at);
      (j, if u == Recorded then DeliveredNow else Acknowledged)
    else
      var (j, u) := FailureData(i, generation, Classify(report, final), at);
      (j, if u != Recorded then Acknowledged
          else if report.RetryableError? && !final then RetryRequested else FailedNow)
  }

  /** The transaction for a well-formed command. */
  function Attempt(s: State, id: Uuid, generation: int, final: bool, c: Choice): (State, Outcome) {
    if id !in s.invitations then (s, Acknowledged)
    else
      var i := s.invitations[id];
      if !Valid(i) then (s, RepositoryError)
      else if i.generation != generation || StatusAt(i, c.now) != Pending || i.deliveredGeneration == Some(generation)
      then (s, Acknowledged)
      else if i.workspaceId !in s.workspaces then (s, Acknowledged)
      else if !c.linkIssued then (s, RepositoryError)
      else
        var (j, outcome) := Record(i, generation, final, c.report, c.later);
        (s.(mails := Post(s.mails, Mail(IdempotencyKey(id, generation), id, generation, i.invitedEmail), c.report),
            invitations := s.invitations[id := j]), outcome)
  }

  function Handle(s: State, m: W.WorkerMessage, maxAttempts: nat, c: Choice): (State, Outcome) {
    match M.AsInvitationWork(m.payload)
    case None => (s, Acknowledged)
    case Some((id, generation)) =>
      if generation <= 0 || m.aggregateId != Format(id) then (s, Acknowledged)
      else
        var (t, outcome) := Attempt(s, id, generation, IsFinal(m.deliveryAttempt, maxAttempts), c);
        if c.commit then (t, outcome) else (s.(mails := t.mails), RepositoryError)
  }

  /** The message that queues a mail arrives at the delivery handler as the command it was. */
  lemma CommandArrives(id: Uuid, generation: int, messageId: Uuid, correlation: Option<Uuid>, causation: Option<Uuid>,
                       row: int, pushId: string, attempt: Option<nat>)
    requires I64_MIN <= generation <= I64_MAX
    ensures var m := M.SendWorkspaceInvitationMessage(id, generation, messageId, correlation, causation);
            var decoded := W.DecodeWorkerMessage(W.PushOf(W.RowFor(row, m), pushId, attempt));
      && decoded.Ok? && W.Dispatch(decoded.value.eventType) == W.InvitationHandler
        && decoded.value.deliveryAttempt == attempt
      && decoded.value.aggregateId == Format(id) && M.AsInvitationWork(decoded.value.payload) == Some((id, generation))
  {
    var m := M.SendWorkspaceInvitationMessage(id, generation, messageId, correlation, causation);
    W.TypedDelivery(row, m, pushId, attempt);
    W.RoutesDiffer();
    M.InvitationWorkRoundTrip(id, generation);
  }

  // ---------- runs ----------

  datatype Label =
    | AddWorkspace(workspace: Uuid, name: string)
    | RemoveWorkspace(workspace: Uuid)
    | Create(id: Uuid, workspaceOf: Uuid, inviter: Uuid, email: string, at: Time, expiresAt: Time)
    | Command(invitation: Uuid, step: Step)
    | Deliver(message: W.WorkerMessage, maxAttempts: nat, choice: Choice)

  /** The steps that commands take; deliveries are recorded by the handler only. */
  predicate IsCommand(step: Step) {
    step.Accept? || step.Queue? || step.Resend? || step.Revoke?
  }

  function Next(s: State, l: Label): State {
    match l
    case AddWorkspace(w, name) => s.(workspaces := s.workspaces[w := name])
    case RemoveWorkspace(w) => s.(workspaces := s.workspaces - {w})
    case Create(id, w, inviter, email, at, expiresAt) =>
      (match CreateData(id, w, inviter, email, at, expiresAt)
       case Ok(i) => if id in s.invitations then s else s.(invitations := s.invitations[id := i])
       case Err(_) => s)
    case Command(id, step) =>
      if id in s.invitations && Valid(s.invitations[id]) && IsCommand(step)
      then s.(invitations := s.invitations[id := Apply(s.invitations[id], step)]) else s
    case Deliver(m, maxAttempts, c) => Handle(s, m, maxAttempts, c).0
  }

  function Run(s: State, labels: seq<Label>): State
    decreases |labels|
  {
    if labels == [] then s else Run(Next(s, labels[0]), labels[1..])
  }

  ghost predicate Reachable(s: State) {
    exists labels :: s == Run(INITIAL, labels)
  }

  // ---------- invariant ----------

  ghost predicate HasMail(mails: seq<Mail>, id: Uuid, generation: int, to: string) {
    exists k :: 0 <= k < |mails| && mails[k].invitationId == id && mails[k].generation == generation
      && mails[k].to == to
  }

  ghost predicate InvitationOk(s: State, id: Uuid) {
    && id in s.invitations
    && var i := s.invitations[id];
    && i.id == id && 0 < i.generation && DeliveryValid(i)
    && (i.deliveredGeneration == Some(i.generation) ==> i.lastDeliveryFailure.None?)
    && (i.deliveredGeneration.Some? ==> HasMail(s.mails, id, i.deliveredGeneration.value, i.invitedEmail))
  }

  /** Each mail carries the address of its invitation and the key made from its own id and generation, once. */
  ghost predicate MailsOk(s: State) {
    && (forall k :: 0 <= k < |s.mails| ==>
          var m := s.mails[k];
          && m.key == IdempotencyKey(m.invitationId, m.generation)
          && m.invitationId in s.invitations && s.invitations[m.invitationId].invitedEmail == m.to)
    && (forall j, k :: 0 <= j < k < |s.mails| ==> s.mails[j].key != s.mails[k].key)
  }

  ghost predicate Inv(s: State) {
    MailsOk(s) && forall id :: id in s.invitations ==> InvitationOk(s, id)
  }

  lemma SamePieces(p: string, a1: string, b1: string, a2: string, b2: string)
    requires |a1| == |a2| && p + a1 + "/" + b1 == p + a2 + "/" + b2
    ensures a1 == a2 && b1 == b2
  {
    var k := p + a1 + "/" + b1;
    assert a1 == k[|p|..|p| + |a1|] && b1 == k[|p| + |a1| + 1..];
    assert a2 == k[|p|..|p| + |a1|] && b2 == k[|p| + |a1| + 1..];
  }

  /** The key tells invitations and generations apart. */
  lemma KeyInjective(id1: Uuid, g1: int, id2: Uuid, g2: int)
    requires IdempotencyKey(id1, g1) == IdempotencyKey(id2, g2)
    ensures id1 == id2 && g1 == g2
  {
    SamePieces("workspace-invitation/", Format(id1), Decimal(g1), Format(id2), Decimal(g2));
    FormatInjective(id1, id2);
    DecimalInjective(g1, g2);
  }

  // ---------- one delivery ----------

  lemma PostKeeps(mails: seq<Mail>, mail: Mail, report: SendReport, id: Uuid, generation: int, to: string)
    ensures HasMail(mails, id, generation, to) ==> HasMail(Post(mails, mail, report), id, generation, to)
  {
    if HasMail(mails, id, generation, to) {
      var k :| 0 <= k < |mails| && mails[k].invitationId == id && mails[k].generation == generation
        && mails[k].to == to;
      assert Post(mails, mail, report)[k] == mails[k];
    }
  }

  /** After a reported success the provider has this very mail: the key cannot have been used for another. */
  lemma SentIsPosted(s: State, mail: Mail)
    requires MailsOk(s) && mail.key == IdempotencyKey(mail.invitationId, mail.generation)
    requires mail.invitationId in s.invitations && s.invitations[mail.invitationId].invitedEmail == mail.to
    ensures HasMail(Post(s.mails, mail, Sent), mail.invitationId, mail.generation, mail.to)
  {
    var after := Post(s.mails, mail, Sent);
    if mail.key in Keys(s.mails) {
      var k :| 0 <= k < |s.mails| && s.mails[k].key == mail.key;
      KeyInjective(s.mails[k].invitationId, s.mails[k].generation, mail.invitationId, mail.generation);
      assert after[k].invitationId == mail.invitationId && after[k].to == mail.to;
    } else {
      assert after[|s.mails|] == mail;
    }
  }

  lemma PostedMailsOk(s: State, t: State, mail: Mail, report: SendReport)
    requires MailsOk(s) && mail.key == IdempotencyKey(mail.invitationId, mail.generation)
    requires mail.invitationId in s.invitations && s.invitations[mail.invitationId].invitedEmail == mail.to
    requires t.mails == Post(s.mails, mail, report)
    requires forall id :: id in s.invitations ==>
      id in t.invitations && t.invitations[id].invitedEmail == s.invitations[id].invitedEmail
    ensures MailsOk(t)
  {
    if mail.key !in Keys(s.mails) {
      assert forall k :: 0 <= k < |s.mails| ==> s.mails[k].key in Keys(s.mails);
    }
  }

  /** What any number of steps do to the invitations. */
  ghost predicate Evolves(s: State, t: State) {
    && (forall id :: id in s.invitations ==> id in t.invitations && Progresses(s.invitations[id], t.invitations[id]))
    && s.mails <= t.mails
  }

  lemma RecordProgresses(i: Invitation, generation: int, final: bool, report: SendReport, at: Time)
    requires DeliveryValid(i) && 0 < i.generation
    ensures Progresses(i, Record(i, generation, final, report, at).0)
    ensures DeliveryValid(Record(i, generation, final, report, at).0)
  {}

  function MailFor(i: Invitation): Mail {
    Mail(IdempotencyKey(i.id, i.generation), i.id, i.generation, i.invitedEmail)
  }

  /** The mail is out, nothing is saved. */
  lemma PostingKeeps(s: State, t: State, id: Uuid, report: SendReport)
    requires Inv(s) && id in s.invitations && t == s.(mails := Post(s.mails, MailFor(s.invitations[id]), report))
    ensures Inv(t) && Evolves(s, t)
  {
    var mail := MailFor(s.invitations[id]);
    assert InvitationOk(s, id);
    PostedMailsOk(s, t, mail, report);
    forall x | x in t.invitations ensures InvitationOk(t, x) {
      assert InvitationOk(s, x);
      var i := s.invitations[x];
      if i.deliveredGeneration.Some? {
        PostKeeps(s.mails, mail, report, x, i.deliveredGeneration.value, i.invitedEmail);
      }
    }
    NothingMoves(s);
  }

  /** Saving the record of what was reported. */
  lemma RecordingKeeps(s: State, t: State, id: Uuid, final: bool, report: SendReport, at: Time)
    requires Inv(s) && id in s.invitations
    requires s.invitations[id].deliveredGeneration != Some(s.invitations[id].generation)
    requires report.Sent? ==> HasMail(s.mails, id, s.invitations[id].generation, s.invitations[id].invitedEmail)
    requires var i := s.invitations[id];
      t == s.(invitations := s.invitations[id := Record(i, i.generation, final, report, at).0])
    ensures Inv(t) && Evolves(s, t)
  {
    assert InvitationOk(s, id);
    RecordProgresses(s.invitations[id], s.invitations[id].generation, final, report, at);
    RecordOk(s, t, id, final, report, at);
    forall x | x in t.invitations ensures InvitationOk(t, x) {
      assert InvitationOk(s, x);
    }
    NothingMoves(s);
  }

  lemma RecordOk(s: State, t: State, id: Uuid, final: bool, report: SendReport, at: Time)
    requires InvitationOk(s, id) && s.invitations[id].deliveredGeneration != Some(s.invitations[id].generation)
    requires report.Sent? ==> HasMail(s.mails, id, s.invitations[id].generation, s.invitations[id].invitedEmail)
    requires var i := s.invitations[id];
      t == s.(invitations := s.invitations[id := Record(i, i.generation, final, report, at).0])
    ensures InvitationOk(t, id)
  {}

  lemma NothingMoves(s: State)
    requires forall id :: id in s.invitations ==> DeliveryValid(s.invitations[id])
    ensures Evolves(s, s)
  {}

  lemma AttemptKeeps(s: State, id: Uuid, generation: int, final: bool, c: Choice)
    requires Inv(s)
    ensures var t := Attempt(s, id, generation, final, c).0;
      Inv(t) && Evolves(s, t) && Inv(s.(mails := t.mails)) && Evolves(s, s.(mails := t.mails))
  {
    var t := Attempt(s, id, generation, final, c).0;
    if t == s {
      NothingMoves(s);
      assert s.(mails := t.mails) == s;
    } else {
      var i := s.invitations[id];
      assert InvitationOk(s, id);
      var posted := s.(mails := Post(s.mails, MailFor(i), c.report));
      PostingKeeps(s, posted, id, c.report);
      if c.report.Sent? {
        SentIsPosted(s, MailFor(i));
      }
      RecordingKeeps(posted, t, id, final, c.report, c.later);
      EvolvesTransitive(s, posted, t);
    }
  }

  lemma HandleKeeps(s: State, m: W.WorkerMessage, maxAttempts: nat, c: Choice)
    requires Inv(s)
    ensures Inv(Handle(s, m, maxAttempts, c).0) && Evolves(s, Handle(s, m, maxAttempts, c).0)
  {
    NothingMoves(s);
    match M.AsInvitationWork(m.payload)
    case None =>
    case Some((id, generation)) => AttemptKeeps(s, id, generation, IsFinal(m.deliveryAttempt, maxAttempts), c);
  }

  // ---------- all runs ----------

  lemma CommandKeeps(s: State, id: Uuid, step: Step)
    requires Inv(s) && id in s.invitations && Valid(s.invitations[id]) && IsCommand(step)
    ensures var t := s.(invitations := s.invitations[id := Apply(s.invitations[id], step)]); Inv(t) && Evolves(s, t)
  {
    var t := s.(invitations := s.invitations[id := Apply(s.invitations[id], step)]);
    assert InvitationOk(s, id);
    CommandedOk(s, t, id, step);
    forall x | x in t.invitations ensures InvitationOk(t, x) {
      assert InvitationOk(s, x);
    }
    NothingMoves(s);
  }

  lemma CommandedOk(s: State, t: State, id: Uuid, step: Step)
    requires InvitationOk(s, id) && IsCommand(step)
    requires t == s.(invitations := s.invitations[id := Apply(s.invitations[id], step)])
    ensures InvitationOk(t, id) && Progresses(s.invitations[id], t.invitations[id])
  {
    StepProgresses(s.invitations[id], step);
  }

  lemma CreateKeeps(s: State, id: Uuid, i: Invitation)
    requires Inv(s) && id !in s.invitations && Valid(i) && i.id == id && i.deliveredGeneration.None?
    ensures var t := s.(invitations := s.invitations[id := i]); Inv(t) && Evolves(s, t)
  {
    NothingMoves(s);
    var t := s.(invitations := s.invitations[id := i]);
    forall x | x in t.invitations ensures InvitationOk(t, x) {
      assert x != id ==> InvitationOk(s, x);
    }
  }

  lemma WorkspacesKeep(s: State, t: State)
    requires Inv(s) && t == s.(workspaces := t.workspaces)
    ensures Inv(t) && Evolves(s, t)
  {
    NothingMoves(s);
    forall id | id in t.invitations ensures InvitationOk(t, id) {
      assert InvitationOk(s, id);
    }
  }

  lemma NextKeeps(s: State, l: Label)
    requires Inv(s)
    ensures Inv(Next(s, l)) && Evolves(s, Next(s, l))
  {
    NothingMoves(s);
    match l
    case AddWorkspace(_, _) => WorkspacesKeep(s, Next(s, l));
    case RemoveWorkspace(_) => WorkspacesKeep(s, Next(s, l));
    case Create(id, w, inviter, email, at, expiresAt) =>
      var r := CreateData(id, w, inviter, email, at, expiresAt);
      if r.Ok? && id !in s.invitations {
        CreateKeeps(s, id, r.value);
      }
    case Command(id, step) =>
      if id in s.invitations && Valid(s.invitations[id]) && IsCommand(step) {
        CommandKeeps(s, id, step);
      }
    case Deliver(m, maxAttempts, c) => HandleKeeps(s, m, maxAttempts, c);
  }

  lemma EvolvesTransitive(s: State, t: State, u: State)
    requires Evolves(s, t) && Evolves(t, u)
    ensures Evolves(s, u)
  {
    forall id | id in s.invitations ensures id in u.invitations && Progresses(s.invitations[id], u.invitations[id]) {
      assert Progresses(s.invitations[id], t.invitations[id]) && Progresses(t.invitations[id], u.invitations[id]);
    }
  }

  lemma {:induction false} RunKeeps(s: State, labels: seq<Label>)
    requires Inv(s)
    ensures Inv(Run(s, labels)) && Evolves(s, Run(s, labels))
    decreases |labels|
  {
    if labels == [] {
      NothingMoves(s);
    } else {
      NextKeeps(s, labels[0]);
      RunKeeps(Next(s, labels[0]), labels[1..]);
      EvolvesTransitive(s, Next(s, labels[0]), Run(s, labels));
    }
  }

  lemma ReachableInOrder(s: State)
    requires Reachable(s)
    ensures Inv(s)
  {
    var labels :| s == Run(INITIAL, labels);
    RunKeeps(INITIAL, labels);
  }

  // ---------- what runs guarantee ----------

  /** An invitation whose current generation was delivered carries no failure, so it shows as delivered. */
  lemma DeliveredIffRecorded(s: State, id: Uuid)
    requires Reachable(s) && id in s.invitations
    ensures StateOfDelivery(s.invitations[id]) == Delivered
       <==> s.invitations[id].deliveredGeneration == Some(s.invitations[id].generation)
  {
    ReachableInOrder(s);
    assert InvitationOk(s, id);
  }

  /** Delivered stays delivered, whatever arrives, until the next resend. */
  lemma DeliveredUntilResent(s: State, labels: seq<Label>, id: Uuid)
    requires Reachable(s) && id in s.invitations && StateOfDelivery(s.invitations[id]) == Delivered
    ensures var t := Run(s, labels);
      && id in t.invitations
      && (t.invitations[id].generation == s.invitations[id].generation ==>
          StateOfDelivery(t.invitations[id]) == Delivered)
  {
    ReachableInOrder(s);
    RunKeeps(s, labels);
    var t := Run(s, labels);
    assert InvitationOk(s, id) && InvitationOk(t, id);
    StillDelivered(s.invitations[id], t.invitations[id]);
  }

  lemma StillDelivered(i: Invitation, j: Invitation)
    requires Progresses(i, j) && StateOfDelivery(i) == Delivered && DeliveryValid(j)
    requires j.deliveredGeneration == Some(j.generation) ==> j.lastDeliveryFailure.None?
    ensures j.generation == i.generation ==> StateOfDelivery(j) == Delivered
  {}

  /** Accepted and revoked are absorbing, so at most one user ever accepts. */
  lemma ClosedForever(s: State, labels: seq<Label>, id: Uuid)
    requires Reachable(s) && id in s.invitations && Closed(s.invitations[id])
    ensures id in Run(s, labels).invitations && Run(s, labels).invitations[id] == s.invitations[id]
  {
    ReachableInOrder(s);
    RunKeeps(s, labels);
    assert Progresses(s.invitations[id], Run(s, labels).invitations[id]);
  }

  lemma OneAcceptor(s: State, labels: seq<Label>, id: Uuid, user: Uuid)
    requires Reachable(s) && id in s.invitations && s.invitations[id].acceptingUserId == Some(user)
    requires s.invitations[id].acceptedAt.Some?
    ensures id in Run(s, labels).invitations && Run(s, labels).invitations[id].acceptingUserId == Some(user)
  {
    ClosedForever(s, labels, id);
  }

  /** A message of any other generation does nothing at all and is acknowledged. */
  lemma StaleMessageChangesNothing(s: State, m: W.WorkerMessage, maxAttempts: nat, c: Choice, id: Uuid, generation: int)
    requires M.AsInvitationWork(m.payload) == Some((id, generation))
    requires id in s.invitations && Valid(s.invitations[id]) && generation != s.invitations[id].generation
    ensures Handle(s, m, maxAttempts, c).0 == s
    ensures c.commit ==> Handle(s, m, maxAttempts, c).1 == Acknowledged
  {}

  /** At most one mail per invitation and generation leaves the provider, however often it is asked. */
  lemma OneMailPerGeneration(s: State, j: nat, k: nat)
    requires Reachable(s) && j < |s.mails| && k < |s.mails|
    requires s.mails[j].invitationId == s.mails[k].invitationId && s.mails[j].generation == s.mails[k].generation
    ensures j == k
  {
    ReachableInOrder(s);
    assert s.mails[j].key == s.mails[k].key;
  }

  /** What is recorded as delivered was mailed, to the invited address. */
  lemma DeliveredWasMailed(s: State, id: Uuid)
    requires Reachable(s) && id in s.invitations && s.invitations[id].deliveredGeneration.Some?
    ensures HasMail(s.mails, id, s.invitations[id].deliveredGeneration.value, s.invitations[id].invitedEmail)
  {
    ReachableInOrder(s);
    assert InvitationOk(s, id);
  }

  // ---------- what one push does ----------

  /** The push is a command for this generation of this invitation. */
  ghost predicate Commands(m: W.WorkerMessage, id: Uuid, generation: int) {
    M.AsInvitationWork(m.payload) == Some((id, generation)) && m.aggregateId == Format(id) && generation > 0
  }

  /** A mail for this generation is still wanted at this time. */
  ghost predicate Deliverable(s: State, id: Uuid, generation: int, now: Time) {
    && id in s.invitations
    && var i := s.invitations[id];
    && Valid(i) && i.generation == generation && i.acceptedAt.None? && i.revokedAt.None? && now < i.expiresAt
    && i.deliveredGeneration != Some(generation) && i.workspaceId in s.workspaces
  }

  /** It is sent to the invited address and recorded as delivered. */
  lemma DeliverableIsMailed(s: State, m: W.WorkerMessage, maxAttempts: nat, c: Choice, id: Uuid, generation: int)
    requires Reachable(s) && Commands(m, id, generation) && Deliverable(s, id, generation, c.now)
    requires c.linkIssued && c.report.Sent? && c.later < s.invitations[id].expiresAt && c.commit
    ensures var (t, outcome) := Handle(s, m, maxAttempts, c);
      && outcome == DeliveredNow && HasMail(t.mails, id, generation, s.invitations[id].invitedEmail)
      && t.workspaces == s.workspaces
      && t.invitations == s.invitations[id := s.invitations[id].(
           deliveredGeneration := Some(generation), deliveredAt := Some(c.later), lastDeliveryFailure := None,
           deliveryFailedAt := None)]
  {
    ReachableInOrder(s);
    SentIsPosted(s, Mail(IdempotencyKey(id, generation), id, generation, s.invitations[id].invitedEmail));
  }

  /** A failed send is recorded and, unless it is permanent or the last attempt, asked for again. */
  lemma FailureIsRecorded(s: State, m: W.WorkerMessage, maxAttempts: nat, c: Choice, id: Uuid, generation: int)
    requires Commands(m, id, generation) && Deliverable(s, id, generation, c.now)
    requires c.linkIssued && !c.report.Sent? && c.later < s.invitations[id].expiresAt && c.commit
    ensures var (t, outcome) := Handle(s, m, maxAttempts, c);
      var last := m.deliveryAttempt.Some? && m.deliveryAttempt.value >= maxAttempts;
      && outcome == (if c.report.RetryableError? && !last then RetryRequested else FailedNow)
      && t.workspaces == s.workspaces
      && t.invitations == s.invitations[id := s.invitations[id].(
           lastDeliveryFailure := Some(if last then Exhausted else if c.report.PermanentError? then Permanent
                                       else Retryable),
           deliveryFailedAt := Some(c.later))]
  {}

  /** Without a link no mail is sent, and the push is an error of the repository. */
  lemma UnlinkedIsError(s: State, m: W.WorkerMessage, maxAttempts: nat, c: Choice, id: Uuid, generation: int)
    requires Commands(m, id, generation) && Deliverable(s, id, generation, c.now) && !c.linkIssued
    ensures Handle(s, m, maxAttempts, c) == (s, RepositoryError)
  {}

  /** When the invitation expired while the mail was being sent, nothing is recorded and nothing asked for. */
  lemma ExpiredMeanwhile(s: State, m: W.WorkerMessage, maxAttempts: nat, c: Choice, id: Uuid, generation: int)
    requires Commands(m, id, generation) && Deliverable(s, id, generation, c.now)
    requires c.linkIssued && c.later >= s.invitations[id].expiresAt && c.commit
    ensures var (t, outcome) := Handle(s, m, maxAttempts, c);
      outcome == Acknowledged && t.invitations == s.invitations && t.workspaces == s.workspaces
  {
    assert s.invitations[id := s.invitations[id]] == s.invitations;
  }

  /**
    Exactly when a push adds a mail: it is a command for a generation that is deliverable, the link is issued, the
    provider is reached, and it has no mail for that generation yet. The mail is the right one, and commits or not.
   */
  lemma MailedIff(s: State, m: W.WorkerMessage, maxAttempts: nat, c: Choice)
    requires Reachable(s)
    ensures Handle(s, m, maxAttempts, c).0.mails != s.mails <==>
      exists id, generation ::
        && Commands(m, id, generation) && Deliverable(s, id, generation, c.now) && c.linkIssued
        && (c.report.Sent? || c.report.reached)
        && !HasMail(s.mails, id, generation, s.invitations[id].invitedEmail)
    ensures forall id, generation ::
      Commands(m, id, generation) && Handle(s, m, maxAttempts, c).0.mails != s.mails ==>
        id in s.invitations && Handle(s, m, maxAttempts, c).0.mails
          == s.mails + [Mail("workspace-invitation/" + Format(id) + "/" + Decimal(generation), id, generation,
                             s.invitations[id].invitedEmail)]
  {
    ReachableInOrder(s);
    var work := M.AsInvitationWork(m.payload);
    if work.Some? {
      var (id, generation) := work.value;
      if id in s.invitations {
        assert InvitationOk(s, id);
        KeyUsedIff(s, id, generation);
      }
      if Commands(m, id, generation) && Deliverable(s, id, generation, c.now) {
        assert Handle(s, m, maxAttempts, c).0.mails == if !c.linkIssued then s.mails else
            Post(s.mails, Mail(IdempotencyKey(id, generation), id, generation, s.invitations[id].invitedEmail),
                 c.report);
      } else {
        NotDeliverable(s, m, maxAttempts, c, id, generation);
      }
    }
  }

  lemma KeyUsedIff(s: State, id: Uuid, generation: int)
    requires MailsOk(s) && id in s.invitations
    ensures IdempotencyKey(id, generation) in Keys(s.mails) <==>
      HasMail(s.mails, id, generation, s.invitations[id].invitedEmail)
  {
    if IdempotencyKey(id, generation) in Keys(s.mails) {
      var k :| 0 <= k < |s.mails| && s.mails[k].key == IdempotencyKey(id, generation);
      KeyInjective(s.mails[k].invitationId, s.mails[k].generation, id, generation);
    }
    if HasMail(s.mails, id, generation, s.invitations[id].invitedEmail) {
      var k :| 0 <= k < |s.mails| && s.mails[k].invitationId == id && s.mails[k].generation == generation;
      assert s.mails[k].key in Keys(s.mails);
    }
  }

  /**
    Any other push changes nothing. It is acknowledged, except that an invitation that cannot be loaded is an error of
    the repository.
   */
  lemma NotDeliverable(s: State, m: W.WorkerMessage, maxAttempts: nat, c: Choice, id: Uuid, generation: int)
    requires M.AsInvitationWork(m.payload) == Some((id, generation))
    requires !(Commands(m, id, generation) && Deliverable(s, id, generation, c.now))
    ensures Handle(s, m, maxAttempts, c).0 == s
    ensures c.commit && Commands(m, id, generation) && id in s.invitations && !Valid(s.invitations[id]) ==>
      Handle(s, m, maxAttempts, c).1 == RepositoryError
    ensures c.commit && !(Commands(m, id, generation) && id in s.invitations && !Valid(s.invitations[id])) ==>
      Handle(s, m, maxAttempts, c).1 == Acknowledged
  {}

  /** Accepted, revoked, expired and delivered invitations are not mailed again. */
  lemma ClosedIsNotMailed(s: State, m: W.WorkerMessage, maxAttempts: nat, c: Choice, id: Uuid)
    requires M.AsInvitationWork(m.payload).Some? && M.AsInvitationWork(m.payload).value.0 == id && id in s.invitations
    requires var i := s.invitations[id];
      i.acceptedAt.Some? || i.revokedAt.Some? || i.expiresAt <= c.now || i.deliveredGeneration == Some(i.generation)
    ensures Handle(s, m, maxAttempts, c).0 == s
  {
    NotDeliverable(s, m, maxAttempts, c, id, M.AsInvitationWork(m.payload).value.1);
  }

  /** A push that is no such command is acknowledged, whatever becomes of any transaction. */
  lemma MalformedIsAcknowledged(s: State, m: W.WorkerMessage, maxAttempts: nat, c: Choice)
    requires forall id, generation :: !Commands(m, id, generation)
    ensures Handle(s, m, maxAttempts, c) == (s, Acknowledged)
  {
    var work := M.AsInvitationWork(m.payload);
    if work.Some? {
      assert !Commands(m, work.value.0, work.value.1);
    }
  }

  /** Without a commit the records stay as they are and the push is an error of the repository. */
  lemma UncommittedIsUndone(s: State, m: W.WorkerMessage, maxAttempts: nat, c: Choice, id: Uuid, generation: int)
    requires Commands(m, id, generation) && !c.commit
    ensures var (t, outcome) := Handle(s, m, maxAttempts, c);
      outcome == RepositoryError && t.invitations == s.invitations && t.workspaces == s.workspaces
  {}

  /** The labels that invite somebody and queue the first mail. */
  function Inviting(
      id: Uuid, workspace: Uuid, name: string, inviter: Uuid, email: string, at: Time, expiresAt: Time, queuedAt: Time)
    : seq<Label>
  {
    [AddWorkspace(workspace, name), Create(id, workspace, inviter, email, at, expiresAt),
     Command(id, Queue(1, queuedAt))]
  }

  lemma RunThree(s: State, a: Label, b: Label, c: Label)
    ensures Run(s, [a, b, c]) == Next(Next(Next(s, a), b), c)
  {
    assert [a, b, c][1..] == [b, c] && [b, c][1..] == [c] && [c][1..] == [];
    assert Run(Next(s, a), [b, c]) == Run(Next(Next(s, a), b), [c]);
  }

  lemma CreatedInWorkspace(
      s: State, id: Uuid, workspace: Uuid, inviter: Uuid, email: string, at: Time, expiresAt: Time, made: Invitation)
    requires id !in s.invitations && CreateData(id, workspace, inviter, email, at, expiresAt) == Ok(made)
    requires workspace in s.workspaces
    ensures Next(s, Create(id, workspace, inviter, email, at, expiresAt))
      == s.(invitations := s.invitations[id := made])
  {}

  lemma QueuedFirst(s: State, id: Uuid, queuedAt: Time)
    requires id in s.invitations && s.invitations[id].generation == 1 && !Closed(s.invitations[id])
    requires queuedAt < s.invitations[id].expiresAt && Valid(s.invitations[id])
    ensures var t := Next(s, Command(id, Queue(1, queuedAt)));
      && t.workspaces == s.workspaces && t.mails == s.mails && t.invitations.Keys == s.invitations.Keys
      && t.invitations[id] == s.invitations[id].(queuedGeneration := Some(1), queuedAt := Some(queuedAt),
                                                  lastDeliveryFailure := None, deliveryFailedAt := None)
  {}

  /** Whoever is invited is invited to this workspace at this address, and the first mail is queued. */
  lemma InvitedIsQueued(
      id: Uuid, workspace: Uuid, name: string, inviter: Uuid, email: string, at: Time, expiresAt: Time, queuedAt: Time,
      now: Time)
    requires !IsBlank(email) && WholeSecond(at) < WholeSecond(expiresAt)
    requires queuedAt < WholeSecond(expiresAt) && now < WholeSecond(expiresAt)
    ensures var s := Run(INITIAL, Inviting(id, workspace, name, inviter, email, at, expiresAt, queuedAt));
      && Reachable(s) && s.workspaces == map[workspace := name] && Deliverable(s, id, 1, now)
      && s.invitations[id].workspaceId == workspace && s.invitations[id].invitedEmail == email
      && s.invitations[id].expiresAt == WholeSecond(expiresAt) && StateOfDelivery(s.invitations[id]) == Queued
  {
    var labels := Inviting(id, workspace, name, inviter, email, at, expiresAt, queuedAt);
    CreatedIsValid(id, workspace, inviter, email, at, expiresAt);
    var made := CreateData(id, workspace, inviter, email, at, expiresAt).value;
    RunThree(INITIAL, labels[0], labels[1], labels[2]);
    var a := Next(INITIAL, labels[0]);
    assert a.invitations == map[] && a.workspaces == map[workspace := name];
    CreatedInWorkspace(a, id, workspace, inviter, email, at, expiresAt, made);
    QueuedFirst(Next(a, labels[1]), id, queuedAt);
  }

  /** From the invitation to the mail: in time, it is mailed to its address and shows as delivered. */
  lemma InvitedIsMailed(
      id: Uuid, workspace: Uuid, name: string, inviter: Uuid, email: string, at: Time, expiresAt: Time, queuedAt: Time,
      m: W.WorkerMessage, maxAttempts: nat, c: Choice)
    requires !IsBlank(email) && WholeSecond(at) < WholeSecond(expiresAt) && Commands(m, id, 1)
    requires queuedAt < WholeSecond(expiresAt) && c.now < WholeSecond(expiresAt) && c.later < WholeSecond(expiresAt)
    requires c.linkIssued && c.report == Sent && c.commit
    ensures var s := Run(INITIAL, Inviting(id, workspace, name, inviter, email, at, expiresAt, queuedAt));
      var t := Next(s, Deliver(m, maxAttempts, c));
      HasMail(t.mails, id, 1, email) && id in t.invitations && StateOfDelivery(t.invitations[id]) == Delivered
  {
    InvitedIsQueued(id, workspace, name, inviter, email, at, expiresAt, queuedAt, c.now);
    DeliverableIsMailed(Run(INITIAL, Inviting(id, workspace, name, inviter, email, at, expiresAt, queuedAt)), m,
                        maxAttempts, c, id, 1);
  }

  /** Once its workspace is gone, an invitation is not mailed, and nothing else changes either. */
  lemma RemovedIsNotMailed(s: State, m: W.WorkerMessage, maxAttempts: nat, c: Choice, id: Uuid, generation: int)
    requires Commands(m, id, generation) && id in s.invitations
    ensures var t := Next(s, RemoveWorkspace(s.invitations[id].workspaceId));
      t.invitations == s.invitations && Next(t, Deliver(m, maxAttempts, c)) == t
  {
    NotDeliverable(Next(s, RemoveWorkspace(s.invitations[id].workspaceId)), m, maxAttempts, c, id, generation);
  }

  // ---------- retries end ----------

  lemma RetryOnlyBelowMaximum(s: State, m: W.WorkerMessage, maxAttempts: nat, c: Choice)
    requires m.deliveryAttempt.Some? && Handle(s, m, maxAttempts, c).1 == RetryRequested
    ensures m.deliveryAttempt.value < maxAttempts
  {}

  /** What an invitation says after a delivery with this outcome. */
  predicate RecordedAs(i: Invitation, generation: int, final: bool, outcome: Outcome) {
    match outcome
    case DeliveredNow => i.deliveredGeneration == Some(generation) && StateOfDelivery(i) == Delivered
    case RetryRequested => i.lastDeliveryFailure == Some(Retryable) && !final
    case FailedNow => i.lastDeliveryFailure == Some(if final then Exhausted else Permanent)
    case _ => false
  }

  /**
    The outcome tells what was recorded: delivered means a clean delivery of this generation, a retry means a retryable
    failure below the maximum, failed means a permanent failure or, from the last attempt on, an exhausted one.
   */
  lemma OutcomeTellsRecord(s: State, m: W.WorkerMessage, maxAttempts: nat, c: Choice, id: Uuid, generation: int)
    requires M.AsInvitationWork(m.payload) == Some((id, generation)) && c.commit
    ensures var (t, outcome) := Handle(s, m, maxAttempts, c);
      && (outcome == Acknowledged || outcome == RepositoryError ==> t.invitations == s.invitations)
      && (outcome != Acknowledged && outcome != RepositoryError ==>
            && id in t.invitations
            && RecordedAs(t.invitations[id], generation, IsFinal(m.deliveryAttempt, maxAttempts), outcome))
  {
    AttemptTellsRecord(s, id, generation, IsFinal(m.deliveryAttempt, maxAttempts), c);
  }

  lemma AttemptTellsRecord(s: State, id: Uuid, generation: int, final: bool, c: Choice)
    ensures var (t, outcome) := Attempt(s, id, generation, final, c);
      && (outcome == Acknowledged || outcome == RepositoryError ==> t.invitations == s.invitations)
      && (outcome != Acknowledged && outcome != RepositoryError ==>
          id in t.invitations && RecordedAs(t.invitations[id], generation, final, outcome))
  {
    if id in s.invitations {
      assert s.invitations[id := s.invitations[id]] == s.invitations;
      RecordTells(s.invitations[id], generation, final, c.report, c.later);
    }
  }

  lemma RecordTells(i: Invitation, generation: int, final: bool, report: SendReport, at: Time)
    ensures var (j, outcome) := Record(i, generation, final, report, at);
      if outcome == Acknowledged then j == i
      else outcome != RepositoryError && RecordedAs(j, generation, final, outcome)
  {}

  datatype Redelivery = Redelivery(state: State, settled: Option<Outcome>, retries: nat, errors: nat)

  /**
    Push one message `n` times or until the handler is done with it, with any run in between. The push endpoint
    answers both a requested retry and a repository error with a failure, which makes Pub/Sub push again with the
    next attempt number. However long that goes on, the handler itself asks for it less than `maxAttempts` times.
   */
  function Redeliver(
      s: State, m: W.WorkerMessage, maxAttempts: nat, attempt: nat, choices: nat -> Choice,
      between: nat -> seq<Label>, n: nat)
    : (r: Redelivery)
    ensures attempt + r.retries <= maxAttempts || r.retries == 0
    ensures r.settled.None? ==> r.retries + r.errors == n
    ensures r.settled.Some? ==>
      r.settled.value != RetryRequested && r.settled.value != RepositoryError && r.retries + r.errors < n
    decreases n
  {
    if n == 0 then Redelivery(s, None, 0, 0)
    else
      var push := m.(deliveryAttempt := Some(attempt));
      var (t, outcome) := Handle(s, push, maxAttempts, choices(attempt));
      if outcome != RetryRequested && outcome != RepositoryError then Redelivery(t, Some(outcome), 0, 0)
      else
        var rest := Redeliver(Run(t, between(attempt)), m, maxAttempts, attempt + 1, choices, between, n - 1);
        if outcome == RepositoryError then rest.(errors := rest.errors + 1)
        else RetryOnlyBelowMaximum(s, push, maxAttempts, choices(attempt)); rest.(retries := rest.retries + 1)
  }

  /** Enough pushes settle the message: as many as there are attempts left, one more, and one per repository error. */
  lemma EnoughPushesSettle(
      s: State, m: W.WorkerMessage, maxAttempts: nat, attempt: nat, choices: nat -> Choice,
      between: nat -> seq<Label>, n: nat)
    requires var r := Redeliver(s, m, maxAttempts, attempt, choices, between, n);
      n > r.errors + if attempt <= maxAttempts then maxAttempts - attempt else 0
    ensures Redeliver(s, m, maxAttempts, attempt, choices, between, n).settled.Some?
  {
    var r := Redeliver(s, m, maxAttempts, attempt, choices, between, n);
    assert attempt + r.retries <= maxAttempts || r.retries == 0;
  }

  // ---------- loadable snapshots ----------

  predicate Poisons(s: State, l: Label) {
    l.Command? && l.invitation in s.invitations && BackwardResend(s.invitations[l.invitation], l.step)
  }

  /** No resend of the run goes through with an expiry that is not after its invitation's creation. */
  ghost predicate NeverPoisons(s: State, labels: seq<Label>)
    decreases |labels|
  {
    labels == [] || (!Poisons(s, labels[0]) && NeverPoisons(Next(s, labels[0]), labels[1..]))
  }

  ghost predicate AllValid(s: State) {
    forall id :: id in s.invitations ==> Valid(s.invitations[id])
  }

  lemma NextStaysValid(s: State, l: Label)
    requires AllValid(s) && !Poisons(s, l)
    ensures AllValid(Next(s, l))
  {
    if l.Command? && l.invitation in s.invitations {
      SnapshotClosedIff(s.invitations[l.invitation], l.step);
    } else if l.Deliver? {
      HandleStaysValid(s, l.message, l.maxAttempts, l.choice);
    }
  }

  lemma HandleStaysValid(s: State, m: W.WorkerMessage, maxAttempts: nat, c: Choice)
    requires AllValid(s)
    ensures AllValid(Handle(s, m, maxAttempts, c).0)
  {}

  /** What cannot be loaded cannot be repaired either: every command and every delivery loads first. */
  lemma NextStaysInvalid(s: State, l: Label, id: Uuid)
    requires id in s.invitations && !Valid(s.invitations[id])
    ensures id in Next(s, l).invitations && Next(s, l).invitations[id] == s.invitations[id]
  {}

  lemma {:induction false} StaysInvalid(s: State, labels: seq<Label>, id: Uuid)
    requires id in s.invitations && !Valid(s.invitations[id])
    ensures !AllValid(Run(s, labels))
    decreases |labels|
  {
    if labels != [] {
      NextStaysInvalid(s, labels[0], id);
      StaysInvalid(Next(s, labels[0]), labels[1..], id);
    }
  }

  lemma PoisonedIsInvalid(s: State, l: Label)
    requires AllValid(s) && Poisons(s, l)
    ensures l.invitation in Next(s, l).invitations && !Valid(Next(s, l).invitations[l.invitation])
  {
    SnapshotClosedIff(s.invitations[l.invitation], l.step);
  }

  /** After a run every stored invitation can be loaded again, exactly when no resend of the run went backward. */
  lemma {:induction false} RunsStayLoadableIff(s: State, labels: seq<Label>)
    requires AllValid(s)
    ensures AllValid(Run(s, labels)) <==> NeverPoisons(s, labels)
    decreases |labels|
  {
    if labels != [] {
      var t := Next(s, labels[0]);
      if Poisons(s, labels[0]) {
        PoisonedIsInvalid(s, labels[0]);
        StaysInvalid(t, labels[1..], labels[0].invitation);
      } else {
        NextStaysValid(s, labels[0]);
        RunsStayLoadableIff(t, labels[1..]);
      }
    }
  }

  predicate IsResend(l: Label) {
    l.Command? && l.step.Resend?
  }

  /** No resend is stamped before an invitation that was there, or was created earlier in the run. */
  predicate InOrder(s: State, labels: seq<Label>) {
    && (forall id, j :: id in s.invitations && 0 <= j < |labels| && IsResend(labels[j]) ==>
          s.invitations[id].createdAt <= labels[j].step.at)
    && (forall i, j :: 0 <= i < j < |labels| && labels[i].Create? && IsResend(labels[j]) ==>
          labels[i].at <= labels[j].step.at)
  }

  lemma HandleKeepsCreation(s: State, m: W.WorkerMessage, maxAttempts: nat, c: Choice, id: Uuid)
    requires id in Handle(s, m, maxAttempts, c).0.invitations
    ensures id in s.invitations
    ensures Handle(s, m, maxAttempts, c).0.invitations[id].createdAt == s.invitations[id].createdAt
  {}

  lemma StepKeepsCreation(i: Invitation, step: Step)
    ensures Apply(i, step).createdAt == i.createdAt
  {}

  lemma CreationKept(s: State, l: Label, id: Uuid)
    requires id in Next(s, l).invitations
    ensures var created := Next(s, l).invitations[id].createdAt;
      (id in s.invitations && created == s.invitations[id].createdAt) || (l.Create? && created <= l.at)
  {
    if l.Command? && id in s.invitations {
      StepKeepsCreation(s.invitations[id], l.step);
    } else if l.Deliver? {
      HandleKeepsCreation(s, l.message, l.maxAttempts, l.choice, id);
    }
  }

  lemma InOrderRest(s: State, labels: seq<Label>)
    requires labels != [] && InOrder(s, labels)
    ensures !Poisons(s, labels[0]) && InOrder(Next(s, labels[0]), labels[1..])
  {
    var t, rest := Next(s, labels[0]), labels[1..];
    forall id, j | id in t.invitations && 0 <= j < |rest| && IsResend(rest[j])
      ensures t.invitations[id].createdAt <= rest[j].step.at
    {
      CreationKept(s, labels[0], id);
      assert rest[j] == labels[j + 1];
    }
    forall i, j | 0 <= i < j < |rest| && rest[i].Create? && IsResend(rest[j]) ensures rest[i].at <= rest[j].step.at {
      assert rest[i] == labels[i + 1] && rest[j] == labels[j + 1];
    }
  }

  lemma {:induction false} InOrderNeverPoisons(s: State, labels: seq<Label>)
    requires InOrder(s, labels)
    ensures NeverPoisons(s, labels)
    decreases |labels|
  {
    if labels != [] {
      InOrderRest(s, labels);
      InOrderNeverPoisons(Next(s, labels[0]), labels[1..]);
    }
  }

  /** A clock that never goes back is enough: no resend is stamped before an earlier creation. */
  lemma RunsStayLoadable(labels: seq<Label>)
    requires forall i, j :: 0 <= i < j < |labels| && labels[i].Create? && IsResend(labels[j]) ==>
      labels[i].at <= labels[j].step.at
    ensures AllValid(Run(INITIAL, labels))
  {
    InOrderNeverPoisons(INITIAL, labels);
    RunsStayLoadableIff(INITIAL, labels);
  }

  // ---------- the handler as it acts on the database ----------

  class DeliveryHandler {
    const maxDeliveryAttempts: nat
    var invitations: map<Uuid, Invitation>
    var workspaces: map<Uuid, string>
    var mails: seq<Mail>

    function Contents(): State
      reads this
    {
      State(invitations, workspaces, mails)
    }

    constructor (s: State, maxAttempts: nat)
      ensures Contents() == s && maxDeliveryAttempts == maxAttempts
    {
      invitations, workspaces, mails, maxDeliveryAttempts := s.invitations, s.workspaces, s.mails, maxAttempts;
    }

    method Send(mail: Mail, report: SendReport)
      modifies this`mails
      ensures mails == Post(old(mails), mail, report)
    {
      if Reached(report) && mail.key !in Keys(mails) {
        mails := mails + [mail];
      }
    }

    /** The body of the unit of work: load, check, send, record, save. */
    method UnitOfWork(id: Uuid, generation: int, final: bool, c: Choice) returns (outcome: Outcome)
      modifies this
      ensures (Contents(), outcome) == Attempt(old(Contents()), id, generation, final, c)
    {
      if id !in invitations {
        return Acknowledged;
      }
      var loaded := WorkspaceInvitation.Rehydrate(invitations[id]);
      if loaded.Err? {
        return RepositoryError;
      }
      var invitation := loaded.value;
      if invitation.generation != generation || StatusAt(invitation.Data(), c.now) != Pending
         || invitation.deliveredGeneration == Some(generation) {
        return Acknowledged;
      }
      if invitation.workspaceId !in workspaces {
        return Acknowledged;
      }
      if !c.linkIssued {
        return RepositoryError;
      }
      Send(Mail(IdempotencyKey(id, generation), id, generation, invitation.invitedEmail), c.report);
      assert invitations[id := invitations[id]] == invitations;
      if c.report.Sent? {
        var u := invitation.RecordDeliverySuccess(generation, c.later);
        if u == Ignored {
          return Acknowledged;
        }
        invitations := invitations[id := invitation.Data()];
        outcome := DeliveredNow;
      } else {
        var u := invitation.RecordDeliveryFailure(generation, Classify(c.report, final), c.later);
        if u == Ignored {
          return Acknowledged;
        }
        invitations := invitations[id := invitation.Data()];
        outcome := if c.report.RetryableError? && !final then RetryRequested else FailedNow;
      }
    }

    method HandleMessage(m: W.WorkerMessage, c: Choice) returns (outcome: Outcome)
      modifies this
      ensures (Contents(), outcome) == Handle(old(Contents()), m, maxDeliveryAttempts, c)
    {
      var payload := M.AsInvitationWork(m.payload);
      if payload.None? || payload.value.1 <= 0 {
        return Acknowledged;
      }
      var (id, generation) := payload.value;
      if m.aggregateId != Format(id) {
        return Acknowledged;
      }
      var before := invitations;
      outcome := UnitOfWork(id, generation, IsFinal(m.deliveryAttempt, maxDeliveryAttempts), c);
      if !c.commit {
        invitations := before;
        outcome := RepositoryError;
      }
    }
  }
}
