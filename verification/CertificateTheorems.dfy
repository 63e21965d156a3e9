/** What every run of the certificate tables guarantees, and the endpoints that write them. */
module CertificateTheorems {
  import opened Common
  import opened Certificates

  lemma ReachableInv(steps: seq<Step>)
    ensures Inv(Exec(EMPTY, steps))
  {
    RunKeeps(EMPTY, steps);
  }

  /** Over every run, a certificate is marked revoked exactly when it is in the revocation table. */
  lemma RevokedIffListed(steps: seq<Step>, st: State, serial: string)
    requires st == Exec(EMPTY, steps)
    ensures serial in st.revocations ==> serial in st.certs
    ensures serial in st.certs ==> (st.certs[serial].status == Revoked <==> serial in st.revocations)
  {
    ReachableInv(steps);
  }

  // ---------------------------------------------------------------- OCSP over time

  /** Certificates are not removed, keep their end, and stay revoked; a revocation record does not change. */
  ghost predicate Later(st: State, st': State) {
    && (forall s :: s in st.certs ==>
          s in st'.certs && st'.certs[s].notAfter == st.certs[s].notAfter
          && (st.certs[s].status == Revoked ==> st'.certs[s].status == Revoked))
    && (forall s :: s in st.revocations ==> s in st'.revocations && st'.revocations[s] == st.revocations[s])
    && (forall s :: s in st.issued ==> s in st'.issued && st'.issued[s] == st.issued[s])
  }

  lemma LaterRevoked(st: State, serial: string, now: int)
    requires TablesAgree(st)
    ensures Later(st, RevokeInDb(st, serial, now))
  {
  }

  lemma LaterIssue(st: State, step: Step)
    requires Inv(st) && step.IssueStep?
    ensures Later(st, Next(st, step))
  {
    if step.call in st.calls && step.serial !in st.certs {
      var c := st.calls[step.call];
      if c.serial.Some? {
        LaterRevoked(st.(calls := st.calls - {step.call}), c.serial.value, step.now);
      }
    }
  }

  lemma LaterRevoke(st: State, step: Step)
    requires Inv(st) && step.RevokeStep?
    ensures Later(st, Next(st, step))
  {
    if step.call in st.calls && st.calls[step.call].serial.Some? {
      LaterRevoked(st.(calls := st.calls - {step.call}), st.calls[step.call].serial.value, step.now);
    }
  }

  lemma LaterCreate(st: State, step: Step)
    requires Inv(st) && (step.CreateStep? || step.CreatePlainStep? || step.ReadStep? || step.IssueOtherStep?)
    ensures Later(st, Next(st, step))
  {
  }

  lemma LaterCaRevoke(st: State, step: Step)
    requires Inv(st) && step.CaRevokeStep?
    ensures Later(st, Next(st, step))
  {
  }

  lemma LaterStep(st: State, step: Step)
    requires Inv(st)
    ensures Later(st, Next(st, step))
  {
    match step
    case IssueStep(_, _, _) => LaterIssue(st, step);
    case RevokeStep(_, _) => LaterRevoke(st, step);
    case CaRevokeStep(_, _, _) => LaterCaRevoke(st, step);
    case _ => LaterCreate(st, step);
  }

  lemma {:induction false} LaterRun(st: State, steps: seq<Step>)
    requires Inv(st)
    ensures Later(st, Exec(st, steps))
  {
    if steps != [] {
      var mid := Exec(st, steps[..|steps| - 1]);
      LaterRun(st, steps[..|steps| - 1]);
      RunKeeps(st, steps[..|steps| - 1]);
      LaterStep(mid, steps[|steps| - 1]);
      LaterTwice(st, mid, Next(mid, steps[|steps| - 1]));
    }
  }

  lemma LaterTwice(st: State, mid: State, st': State)
    requires Later(st, mid) && Later(mid, st')
    ensures Later(st, st')
  {
  }

  /** Once OCSP says revoked or expired, it says so for good, whatever is issued and revoked in the meantime. */
  lemma OcspNeverGoodAgain(before: seq<Step>, st: State, steps: seq<Step>, st': State, serial: string, now: int,
                           later: int)
    requires st == Exec(EMPTY, before) && st' == Exec(st, steps)
    requires now <= later && Ocsp(st, serial, now).RevokedAt?
    ensures Ocsp(st', serial, later).RevokedAt?
  {
    ReachableInv(before);
    LaterRun(st, steps);
  }

  /** OCSP says revoked exactly for serials that are in the revocation table or past their end. */
  lemma OcspRevokedIff(steps: seq<Step>, serial: string, now: int)
    ensures var st := Exec(EMPTY, steps);
            && (Ocsp(st, serial, now).RevokedAt? <==>
                  serial in st.certs && (serial in st.revocations || st.certs[serial].notAfter < now))
            && (Ocsp(st, serial, now) == Unknown <==> serial !in st.certs)
  {
    ReachableInv(steps);
  }

  /** Over every run the responder's look-up in the users table decides nothing. */
  lemma UsersTableNeverDecides(steps: seq<Step>, st: State, serial: string, now: int, status: OcspStatus)
    requires st == Exec(EMPTY, steps)
    ensures OcspAnswers(st, serial, now, status) <==> status == Ocsp(st, serial, now)
  {
    ReachableInv(steps);
    forall email | email in st.users && st.users[email].serial == Some(serial) ensures serial in st.certs {
      assert UserOk(st, email, st.users[email]);
    }
  }

  // ---------------------------------------------------------------- one live certificate per user

  /** Every serial issued to a user is revoked, unless it is the user's current one. */
  ghost predicate OthersRevoked(st: State) {
    forall s :: s in st.issued ==>
      s in st.revocations || (st.issued[s] in st.users && st.users[st.issued[s]].serial == Some(s))
  }

  /** A user marked revoked has a revoked certificate. */
  ghost predicate MarksAreTrue(st: State) {
    forall email :: email in st.users && st.users[email].status == RevokedCert && st.users[email].serial.Some? ==>
      st.users[email].serial.value in st.revocations
  }

  /**
   Issuing leaves no other live certificate exactly when the one the user has now is already revoked, or is
   the one the request has read as active.
   */
  lemma IssueRevokesOthersIff(st: State, call: nat, serial: string, now: int)
    requires Inv(st) && OthersRevoked(st) && call in st.calls && serial !in st.certs
    ensures var c := st.calls[call];
            var current := st.users[c.email].serial;
            OthersRevoked(Issue(st, call, serial, now)) <==>
              current.None? || current.value in st.revocations || (current == c.serial && c.status == ActiveCert)
  {
    var c := st.calls[call];
    assert CallOk(st, c) && UserOk(st, c.email, st.users[c.email]);
    var current := st.users[c.email].serial;
    var st' := Issue(st, call, serial, now);
    assert st'.issued == st.issued[serial := c.email] && st'.users[c.email].serial == Some(serial);
    if current.Some? && current.value !in st.revocations && !(current == c.serial && c.status == ActiveCert) {
      assert current.value in st'.issued && st'.issued[current.value] == c.email;
      assert current.value !in st'.revocations;
    } else {
      forall s | s in st'.issued
        ensures s in st'.revocations || (st'.issued[s] in st'.users && st'.users[st'.issued[s]].serial == Some(s))
      {
        if s != serial && st.issued[s] == c.email {
          assert s in st.revocations || current == Some(s);
        }
      }
    }
  }

  /** The user's row has not changed since the request read it. */
  ghost predicate ReadIsCurrent(st: State, step: Step) {
    (step.IssueStep? || step.RevokeStep?) && step.call in st.calls && st.calls[step.call].email in st.users ==>
      var u := st.users[st.calls[step.call].email];
      u.serial == st.calls[step.call].serial && u.status == st.calls[step.call].status
  }

  ghost predicate RequestsDoNotOverlap(st: State, steps: seq<Step>) {
    steps == [] ||
    var init, last := steps[..|steps| - 1], steps[|steps| - 1];
    RequestsDoNotOverlap(st, init) && ReadIsCurrent(Exec(st, init), last)
  }

  lemma IssueLeavesOne(st: State, step: Step)
    requires Inv(st) && OthersRevoked(st) && MarksAreTrue(st) && step.IssueStep? && ReadIsCurrent(st, step)
    ensures OthersRevoked(Next(st, step)) && MarksAreTrue(Next(st, step))
  {
    if step.call in st.calls && step.serial !in st.certs {
      assert CallOk(st, st.calls[step.call]);
      IssueRevokesOthersIff(st, step.call, step.serial, step.now);
    }
  }

  lemma RevokeLeavesOne(st: State, step: Step)
    requires Inv(st) && OthersRevoked(st) && MarksAreTrue(st) && step.RevokeStep? && ReadIsCurrent(st, step)
    ensures OthersRevoked(Next(st, step)) && MarksAreTrue(Next(st, step))
  {
    if step.call in st.calls {
      assert CallOk(st, st.calls[step.call]);
    }
  }

  lemma CreateLeavesOne(st: State, step: Step)
    requires Inv(st) && OthersRevoked(st) && MarksAreTrue(st) && step.CreateStep?
    ensures OthersRevoked(Next(st, step)) && MarksAreTrue(Next(st, step))
  {
  }

  lemma CreatePlainLeavesOne(st: State, step: Step)
    requires Inv(st) && OthersRevoked(st) && MarksAreTrue(st) && step.CreatePlainStep?
    ensures OthersRevoked(Next(st, step)) && MarksAreTrue(Next(st, step))
  {
  }

  lemma OtherStepsLeaveOne(st: State, step: Step)
    requires Inv(st) && OthersRevoked(st) && MarksAreTrue(st)
    requires (step.ReadStep? || step.CaRevokeStep? || step.IssueOtherStep?)
    ensures OthersRevoked(Next(st, step)) && MarksAreTrue(Next(st, step))
  {
  }

  /**
   When the requests of a user do not overlap, over every run each serial issued through the user API other
   than the user's current one is revoked, and a user marked revoked has a revoked certificate.
   */
  lemma {:induction false} OnlyTheCurrentIsLive(steps: seq<Step>)
    requires RequestsDoNotOverlap(EMPTY, steps)
    ensures OthersRevoked(Exec(EMPTY, steps)) && MarksAreTrue(Exec(EMPTY, steps))
  {
    if steps != [] {
      var mid, step := Exec(EMPTY, steps[..|steps| - 1]), steps[|steps| - 1];
      OnlyTheCurrentIsLive(steps[..|steps| - 1]);
      ReachableInv(steps[..|steps| - 1]);
      match step
      case CreateStep(_, _, _) => CreateLeavesOne(mid, step);
      case IssueStep(_, _, _) => IssueLeavesOne(mid, step);
      case RevokeStep(_, _) => RevokeLeavesOne(mid, step);
      case CreatePlainStep(_) => CreatePlainLeavesOne(mid, step);
      case _ => OtherStepsLeaveOne(mid, step);
    }
  }

  /**
   A revoke request that has read an active certificate leaves every mark true exactly when that certificate is
   still the user's, or the one the user has by now is revoked already.
   */
  lemma RevokeKeepsMarksIff(st: State, call: nat, now: int)
    requires Inv(st) && MarksAreTrue(st) && call in st.calls && st.calls[call].status == ActiveCert
    ensures var c := st.calls[call];
            var current := st.users[c.email].serial;
            MarksAreTrue(Revoke(st, call, now)) <==>
              current.Some? && (current == c.serial || current.value in st.revocations)
  {
    var c, st' := st.calls[call], Revoke(st, call, now);
    assert CallOk(st, c) && UserOk(st, c.email, st.users[c.email]);
    var current := st.users[c.email].serial;
    assert st'.users[c.email].serial == current && st'.users[c.email].status == RevokedCert;
    assert forall s :: s in st'.revocations <==> s in st.revocations || s == c.serial.value;
  }

  /** Not revoked, no user's current certificate, and read by no request under way. */
  ghost predicate Forgotten(st: State, serial: string) {
    && serial in st.certs && serial !in st.revocations
    && (forall email :: email in st.users ==> st.users[email].serial != Some(serial))
    && (forall call :: call in st.calls ==> st.calls[call].serial != Some(serial))
  }

  ghost predicate NotByCa(steps: seq<Step>, serial: string) {
    forall i :: 0 <= i < |steps| && steps[i].CaRevokeStep? ==> steps[i].serial != serial
  }

  lemma ForgottenOverStep(st: State, step: Step, serial: string)
    requires Inv(st) && Forgotten(st, serial) && (step.CaRevokeStep? ==> step.serial != serial)
    ensures Forgotten(Next(st, step), serial)
  {
    match step
    case IssueStep(call, other, now) => ForgottenOverIssue(st, call, other, now, serial);
    case RevokeStep(call, now) => ForgottenOverRevoke(st, call, now, serial);
    case _ =>
  }

  lemma ForgottenOverIssue(st: State, call: nat, other: string, now: int, serial: string)
    requires Inv(st) && Forgotten(st, serial)
    ensures Forgotten(Issue(st, call, other, now), serial)
  {
    assert call in st.calls ==> CallOk(st, st.calls[call]);
  }

  lemma ForgottenOverRevoke(st: State, call: nat, now: int, serial: string)
    requires Inv(st) && Forgotten(st, serial)
    ensures Forgotten(Revoke(st, call, now), serial)
  {
    assert call in st.calls ==> CallOk(st, st.calls[call]);
  }

  /** Only the CA can still revoke such a certificate: without it, OCSP calls it good until it expires. */
  lemma {:induction false} ForgottenStaysGood(st: State, steps: seq<Step>, serial: string, at: int)
    requires Inv(st) && Forgotten(st, serial) && NotByCa(steps, serial)
    ensures Forgotten(Exec(st, steps), serial)
    ensures Ocsp(Exec(st, steps), serial, at) == Good <==> at <= st.certs[serial].notAfter
  {
    if steps != [] {
      var init, last := steps[..|steps| - 1], steps[|steps| - 1];
      ForgottenStaysGood(st, init, serial, at);
      RunKeeps(st, init);
      ForgottenOverStep(Exec(st, init), last, serial);
    }
    RunKeeps(st, steps);
    LaterRun(st, steps);
  }

  /** A revoke request reads, a request to issue overtakes it, and the revoke request marks the new certificate. */
  function OvertakenRevoke(email: string, a: string, b: string, now: int): seq<Step> {
    [CreateStep(email, a, now), ReadStep(0, email), ReadStep(1, email), IssueStep(1, b, now), RevokeStep(0, now)]
  }

  /** The user is marked revoked: verify_client_cert refuses the certificate that OCSP calls good. */
  lemma OvertakenRevokeMarksWrong(email: string, a: string, b: string, now: int)
    requires a != b
    ensures var st := Exec(EMPTY, OvertakenRevoke(email, a, b, now));
            && email in st.users && st.users[email].serial == Some(b) && st.users[email].status == RevokedCert
            && b !in st.revocations && b in st.certs && st.certs[b].notAfter == now + VALIDITY
            && st.calls == map[] && st.users.Keys == {email} && st.certs.Keys == {a, b}
            && !Verified(st.users[email], now) && Ocsp(st, b, now) == Good && !MarksAreTrue(st)
  {
    var read := ReadUser(ReadUser(Create(EMPTY, email, a, now), 0, email), 1, email);
    OvertakenRevokeSteps(email, a, b, now);
    assert read.certs.Keys == {a} && read.users.Keys == {email};
    assert Issue(read, 1, b, now).certs.Keys == {a, b};
  }

  lemma OvertakenRevokeSteps(email: string, a: string, b: string, now: int)
    ensures var read := ReadUser(ReadUser(Create(EMPTY, email, a, now), 0, email), 1, email);
            Exec(EMPTY, OvertakenRevoke(email, a, b, now)) == Revoke(Issue(read, 1, b, now), 0, now)
  {
    var create, read, read' := CreateStep(email, a, now), ReadStep(0, email), ReadStep(1, email);
    var issue, revoke := IssueStep(1, b, now), RevokeStep(0, now);
    ExecFive(EMPTY, create, read, read', issue, revoke);
    var st1 := Next(EMPTY, create);
    assert st1 == Create(EMPTY, email, a, now);
    var st3 := Next(Next(st1, read), read');
    assert st3 == ReadUser(ReadUser(st1, 0, email), 1, email);
    assert Next(Next(st3, issue), revoke) == Revoke(Issue(st3, 1, b, now), 0, now);
  }

  lemma ExecFive(st: State, a: Step, b: Step, c: Step, d: Step, e: Step)
    ensures Exec(st, [a, b, c, d, e]) == Next(Next(Next(Next(Next(st, a), b), c), d), e)
  {
    var steps := [a, b, c, d, e];
    assert steps[..4][..3] == steps[..3] && steps[..3][..2] == steps[..2] && steps[..2][..1] == steps[..1];
    assert Exec(st, steps[..1]) == Next(st, a) && Exec(st, steps[..2]) == Next(Exec(st, steps[..1]), b);
    assert Exec(st, steps[..3]) == Next(Exec(st, steps[..2]), c);
    assert Exec(st, steps[..4]) == Next(Exec(st, steps[..3]), d);
  }

  /** A request to issue that finds its user marked revoked revokes nothing: the user's certificate is forgotten. */
  lemma IssueForgetsWronglyMarked(st: State, call: nat, other: string, now: int, serial: string)
    requires Inv(st) && call in st.calls && other !in st.certs && serial !in st.revocations
    requires var c := st.calls[call]; c.status == RevokedCert && st.users[c.email].serial == Some(serial)
    requires forall k :: k in st.calls && k != call ==> st.calls[k].serial != Some(serial)
    ensures var st' := Issue(st, call, other, now);
            Forgotten(st', serial) && st'.certs[serial] == st.certs[serial]
  {
    assert CallOk(st, st.calls[call]) && UserOk(st, st.calls[call].email, st.users[st.calls[call].email]);
    assert forall email :: email in st.users && st.users[email].serial == Some(serial) ==>
        UserOk(st, email, st.users[email]);
  }

  /**
   A user marked revoked whose certificate is not: issuing once more, with no other request under way, does not
   revoke it, and no request of the user API ever will.
   */
  lemma ReissueLeavesGood(st: State, email: string, other: string, now: int, later: seq<Step>, serial: string, at: int)
    requires Inv(st) && st.calls == map[] && email in st.users && other !in st.certs && NotByCa(later, serial)
    requires st.users[email].status == RevokedCert && st.users[email].serial == Some(serial)
    requires serial in st.certs && serial !in st.revocations
    ensures var read := ReadUser(st, 0, email);
            && ReadIsCurrent(read, IssueStep(0, other, now))
            && (Ocsp(Exec(Issue(read, 0, other, now), later), serial, at) == Good <==> at <= st.certs[serial].notAfter)
  {
    var read := ReadUser(st, 0, email);
    ReadUserKeeps(st, ReadStep(0, email));
    IssueForgetsWronglyMarked(read, 0, other, now, serial);
    IssueKeeps(read, IssueStep(0, other, now));
    ForgottenStaysGood(Issue(read, 0, other, now), later, serial, at);
  }

  /** So it is after that race. */
  lemma OvertakenRevokeLeavesGood(email: string, a: string, b: string, c: string, now: int, later: seq<Step>, at: int)
    requires a != b && c != a && c != b && NotByCa(later, b)
    ensures var read := ReadUser(Exec(EMPTY, OvertakenRevoke(email, a, b, now)), 0, email);
            Ocsp(Exec(Issue(read, 0, c, now), later), b, at) == Good <==> at <= now + VALIDITY
  {
    OvertakenRevokeMarksWrong(email, a, b, now);
    ReachableInv(OvertakenRevoke(email, a, b, now));
    ReissueLeavesGood(Exec(EMPTY, OvertakenRevoke(email, a, b, now)), email, c, now, later, b, at);
  }

  /** Two requests to issue that both read first: the user ends with two certificates OCSP calls good. */
  lemma OverlappingIssuesLeaveTwo(email: string, a: string, b: string, c: string, now: int)
    requires a != b && b != c && a != c
    ensures var st := ReadUser(ReadUser(Create(EMPTY, email, a, now), 0, email), 1, email);
            var st' := Issue(Issue(st, 0, b, now), 1, c, now);
            && st'.users[email].serial == Some(c) && st'.issued[b] == email
            && Ocsp(st', b, now) == Good && Ocsp(st', c, now) == Good && Ocsp(st', a, now).RevokedAt?
            && !OthersRevoked(st') && Forgotten(st', b)
  {
    var st := ReadUser(ReadUser(Create(EMPTY, email, a, now), 0, email), 1, email);
    var st' := Issue(Issue(st, 0, b, now), 1, c, now);
    assert b in st'.issued && b !in st'.revocations && st'.users[email].serial == Some(c);
  }

  /** A charger or contract certificate, which no user has, is good from its issue to its end. */
  lemma OtherCertificateIsGood(st: State, serial: string, notAfter: int, now: int)
    requires serial !in st.certs
    ensures var st' := IssueOther(st, serial, notAfter);
            && st'.users == st.users && st'.revocations == st.revocations
            && Ocsp(st', serial, now) == if now <= notAfter then Good else RevokedAt(Some(notAfter))
  {
  }

  // ---------------------------------------------------------------- two verifiers

  /**
   verify_client_cert and OCSP agree on a user's current certificate exactly when it has expired, or the user is
   marked revoked just when it is in the revocation table.  The CA's own revocation breaks it on one side, a
   revoke request overtaken by a request to issue on the other.
   */
  lemma VerifiersAgreeIff(st: State, email: string, now: int)
    requires Inv(st) && email in st.users && st.users[email].serial.Some?
    ensures var u := st.users[email];
            (Verified(u, now) <==> Ocsp(st, u.serial.value, now) == Good) <==>
              || (u.expires.Some? && u.expires.value < now)
              || (u.status == RevokedCert <==> u.serial.value in st.revocations)
  {
    assert UserOk(st, email, st.users[email]);
  }

  /** The CA revokes a user's live certificate: OCSP says revoked, verify_client_cert still accepts it. */
  lemma CaRevocationIsNotSeen(st: State, email: string, reason: string, now: int)
    requires Inv(st) && email in st.users && Verified(st.users[email], now)
    requires st.users[email].serial.Some? && Ocsp(st, st.users[email].serial.value, now) == Good
    ensures var st' := CaRevoke(st, st.users[email].serial.value, reason, now);
            Verified(st'.users[email], now) && Ocsp(st', st.users[email].serial.value, now) == RevokedAt(Some(now))
  {
  }

  // ---------------------------------------------------------------- the endpoints

  datatype Reply = Done | NotFound | Conflict | BadRequest

  /** A revocation in both tables: the record of a serial revoked before stays. */
  ghost predicate IsRevokedIn(certs: map<string, Cert>, revs: map<string, Revocation>, certs': map<string, Cert>,
                              revs': map<string, Revocation>, serial: string, reason: string, now: int)
  {
    && serial in certs && certs' == certs[serial := Cert(Revoked, certs[serial].notAfter, Some(now), reason)]
    && revs' == if serial in revs then revs else revs[serial := Revocation(now, reason)]
  }

  /** A certificate for a year, the user's current one. */
  ghost predicate IsGiven(users: map<string, User>, certs: map<string, Cert>, users': map<string, User>,
                          certs': map<string, Cert>, email: string, serial: string, now: int)
  {
    && users' == users[email := User(Some(serial), ActiveCert, Some(now + 365 * 24 * 60 * 60), None)]
    && certs' == certs[serial := Cert(Active, now + 365 * 24 * 60 * 60, None, "")]
  }

  /** A new certificate; the active one before it, and no other, is revoked. */
  ghost predicate IsReplaced(users: map<string, User>, certs: map<string, Cert>, revs: map<string, Revocation>,
                             users': map<string, User>, certs': map<string, Cert>, revs': map<string, Revocation>,
                             email: string, serial: string, now: int)
  {
    if email in users && users[email].serial.Some? && users[email].status == ActiveCert then
      exists mid :: IsRevokedIn(certs, revs, mid, revs', users[email].serial.value, "superseded", now)
                    && IsGiven(users, mid, users', certs', email, serial, now)
    else revs' == revs && IsGiven(users, certs, users', certs', email, serial, now)
  }

  /** Revoked with its time, past its end with that, or good. */
  predicate IsAnswer(revoked: bool, revokedAt: Option<int>, end: Option<int>, now: int, status: OcspStatus) {
    if revoked then status == RevokedAt(revokedAt)
    else if end.Some? && end.value < now then status == RevokedAt(end)
    else status == Good
  }

  class CertificateStore {
    var users: map<string, User>
    var certs: map<string, Cert>
    var revocations: map<string, Revocation>
    ghost var issued: map<string, string>

    constructor ()
      ensures Now() == EMPTY
    {
      users, certs, revocations, issued := map[], map[], map[], map[];
    }

    ghost function Now(): State
      reads this
    {
      State(users, certs, revocations, map[], issued)
    }

    method RevokeCertInDb(serial: string, now: int)
      requires serial in certs
      modifies this`certs, this`revocations
      ensures Now() == RevokeInDb(old(Now()), serial, now)
      ensures IsRevokedIn(old(certs), old(revocations), certs, revocations, serial, "superseded", now)
    {
      certs := certs[serial := certs[serial].(status := Revoked, revokedAt := Some(now), reason := "superseded")];
      if serial !in revocations {
        revocations := revocations[serial := Revocation(now, "superseded")];
      }
    }

    /** The serial is the CA's random one. */
    method IssueCertForUser(email: string, serial: string, now: int)
      requires serial !in certs
      requires email in users && users[email].serial.Some? ==> users[email].serial.value in certs
      modifies this
      ensures var st := old(Now());
              var u := if email in st.users then st.users[email] else User(None, NoCert, None, None);
              var live := u.serial.Some? && u.status == ActiveCert;
              Now() == GiveCert(if live then RevokeInDb(st, u.serial.value, now) else st, email, serial, now)
      ensures IsReplaced(old(users), old(certs), old(revocations), users, certs, revocations, email, serial, now)
    {
      ghost var mid := certs;
      if email in users && users[email].serial.Some? && users[email].status == ActiveCert {
        RevokeCertInDb(users[email].serial.value, now);
        mid := certs;
      }
      var expires := now + VALIDITY;
      users := users[email := User(Some(serial), ActiveCert, Some(expires), None)];
      certs := certs[serial := Cert(Active, expires, None, "")];
      issued := issued[serial := email];
      assert IsGiven(old(users), mid, users, certs, email, serial, now);
    }

    method CreateUser(email: string, serial: string, now: int) returns (reply: Reply)
      requires serial !in certs
      modifies this
      ensures Now() == Create(old(Now()), email, serial, now)
      ensures reply == if email in old(users) then Conflict else Done
      ensures reply == Conflict ==> users == old(users) && certs == old(certs)
      ensures reply == Done ==> IsGiven(old(users), old(certs), users, certs, email, serial, now)
      ensures revocations == old(revocations)
    {
      if email in users {
        return Conflict;
      }
      IssueCertForUser(email, serial, now);
      reply := Done;
    }

    method CreateAdmin(email: string) returns (reply: Reply)
      modifies this`users
      ensures Now() == CreatePlain(old(Now()), email)
      ensures reply == if email in old(users) then Conflict else Done
      ensures users == if email in old(users) then old(users) else old(users)[email := User(None, NoCert, None, None)]
    {
      if email in users {
        return Conflict;
      }
      users := users[email := User(None, NoCert, None, None)];
      reply := Done;
    }

    method IssueCert(email: string, serial: string, now: int) returns (reply: Reply)
      requires Inv(Now()) && serial !in certs
      modifies this
      ensures Now() == Issue(ReadUser(old(Now()), 0, email), 0, serial, now)
      ensures reply == if email in old(users) then Done else NotFound
      ensures reply == Done ==>
                IsReplaced(old(users), old(certs), old(revocations), users, certs, revocations, email, serial, now)
      ensures reply == NotFound ==> users == old(users) && certs == old(certs) && revocations == old(revocations)
    {
      if email !in users {
        return NotFound;
      }
      assert UserOk(Now(), email, users[email]);
      IssueCertForUser(email, serial, now);
      reply := Done;
    }

    method RevokeCert(email: string, now: int) returns (reply: Reply)
      requires Inv(Now())
      modifies this
      ensures Now() == Revoke(ReadUser(old(Now()), 0, email), 0, now)
      ensures reply == if email !in old(users) then NotFound
                       else if old(users)[email].status != ActiveCert then BadRequest else Done
      ensures reply != Done ==> users == old(users) && certs == old(certs) && revocations == old(revocations)
      ensures reply == Done ==>
                var u := old(users)[email];
                && u.serial.Some?
                && users == old(users)[email := User(u.serial, RevokedCert, u.expires, Some(now))]
                && IsRevokedIn(old(certs), old(revocations), certs, revocations, u.serial.value, "superseded", now)
    {
      if email !in users {
        return NotFound;
      }
      assert UserOk(Now(), email, users[email]);
      if users[email].status != ActiveCert {
        return BadRequest;
      }
      RevokeCertInDb(users[email].serial.value, now);
      users := users[email := users[email].(status := RevokedCert, revokedAt := Some(now))];
      reply := Done;
    }

    method RevokeCertificate(serial: string, reason: string, now: int) returns (revoked: bool)
      modifies this`certs, this`revocations
      ensures Now() == CaRevoke(old(Now()), serial, reason, now)
      ensures revoked <==> serial in old(certs) && old(certs)[serial].status == Active
      ensures revoked ==> IsRevokedIn(old(certs), old(revocations), certs, revocations, serial, reason, now)
      ensures !revoked ==> certs == old(certs) && revocations == old(revocations)
    {
      if serial !in certs || certs[serial].status != Active {
        return false;
      }
      certs := certs[serial := certs[serial].(status := Revoked, revokedAt := Some(now), reason := reason)];
      if serial !in revocations {
        revocations := revocations[serial := Revocation(now, reason)];
      }
      return true;
    }

    /** The certificate row, or else a row made up from the users table. */
    method HandleRequest(serial: string, now: int) returns (status: OcspStatus)
      ensures OcspAnswers(Now(), serial, now, status)
      ensures if serial in certs then
                var c := certs[serial];
                IsAnswer(c.status == Revoked, c.revokedAt, Some(c.notAfter), now, status)
              else if exists email :: email in users && users[email].serial == Some(serial) then
                exists email :: email in users && users[email].serial == Some(serial)
                                && var u := users[email];
                                   IsAnswer(u.status == RevokedCert, u.revokedAt, u.expires, now, status)
              else status == Unknown
    {
      if serial in certs {
        return Answer(certs[serial].status, certs[serial].revokedAt, Some(certs[serial].notAfter), now);
      }
      if email :| email in users && users[email].serial == Some(serial) {
        return FromUser(users[email], now);
      }
      return Unknown;
    }

    method VerifyClientCert(serial: string, now: int) returns (ok: bool)
      requires Inv(Now())
      ensures ok <==> exists email :: email in users && users[email].serial == Some(serial)
                                   && Verified(users[email], now)
      ensures ok <==> exists email :: email in users && users[email].serial == Some(serial)
                                   && users[email].status == ActiveCert
                                   && (users[email].expires == None || now <= users[email].expires.value)
    {
      if email :| email in users && users[email].serial == Some(serial) {
        forall other | other in users && users[other].serial == Some(serial) ensures other == email {
          assert UserOk(Now(), email, users[email]) && UserOk(Now(), other, users[other]);
        }
        if users[email].status == RevokedCert {
          return false;
        }
        if users[email].expires.Some? && users[email].expires.value < now {
          return false;
        }
        return users[email].status == ActiveCert;
      }
      return false;
    }
  }
}
