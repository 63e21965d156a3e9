/**
 Client certificates: the user API that issues and revokes them, the CA's own revocation, and the OCSP
 answer.  Tables `users`, `pki_certificates` and `pki_revocations`; certificates are identified by serial.

 Issuing and revoking read the user's row first and write in the same transaction, which PostgreSQL's default
 isolation does not protect from another transaction in between; so read and write are two steps.
 */
module Certificates {
  import opened Common

  datatype CertStatus = Active | Revoked

  datatype Cert = Cert(status: CertStatus, notAfter: int, revokedAt: Option<int>, reason: string)

  datatype Revocation = Revocation(at: int, reason: string)

  datatype UserStatus = NoCert | ActiveCert | RevokedCert

  datatype User = User(serial: Option<string>, status: UserStatus, expires: Option<int>, revokedAt: Option<int>)

  /** A request that has read its user's row. */
  datatype Call = Call(email: string, serial: Option<string>, status: UserStatus)

  /** `issued` is history: whom the user API issued a serial to. */
  datatype State = State(
    users: map<string, User>, certs: map<string, Cert>, revocations: map<string, Revocation>,
    calls: map<nat, Call>, issued: map<string, string>)

  const EMPTY := State(map[], map[], map[], map[], map[])

  const DAY := 86400
  const VALIDITY := 365 * DAY

  // ---------------------------------------------------------------- steps

  /** Both tables; the first revocation of a serial is kept, the certificate row takes the latest. */
  function RevokeInDb(st: State, serial: string, now: int): State {
    if serial !in st.certs then st
    else
      var cert := st.certs[serial].(status := Revoked, revokedAt := Some(now), reason := "superseded");
      st.(certs := st.certs[serial := cert],
          revocations := if serial in st.revocations then st.revocations
                         else st.revocations[serial := Revocation(now, "superseded")])
  }

  /** A new certificate becomes the user's; its serial is random and unused. */
  function GiveCert(st: State, email: string, serial: string, now: int): State {
    st.(users := st.users[email := User(Some(serial), ActiveCert, Some(now + VALIDITY), None)],
        certs := st.certs[serial := Cert(Active, now + VALIDITY, None, "")],
        issued := st.issued[serial := email])
  }

  function Create(st: State, email: string, serial: string, now: int): State {
    if email in st.users || serial in st.certs then st else GiveCert(st, email, serial, now)
  }

  /** The set-up wizard's administrator: a user without a certificate. */
  function CreatePlain(st: State, email: string): State {
    if email in st.users then st else st.(users := st.users[email := User(None, NoCert, None, None)])
  }

  function ReadUser(st: State, call: nat, email: string): State {
    if email !in st.users || call in st.calls then st
    else st.(calls := st.calls[call := Call(email, st.users[email].serial, st.users[email].status)])
  }

  function Issue(st: State, call: nat, serial: string, now: int): State {
    if call !in st.calls || serial in st.certs then st
    else
      var c := st.calls[call];
      var st1 := st.(calls := st.calls - {call});
      var st2 := if c.serial.Some? && c.status == ActiveCert then RevokeInDb(st1, c.serial.value, now) else st1;
      GiveCert(st2, c.email, serial, now)
  }

  function Revoke(st: State, call: nat, now: int): State {
    if call !in st.calls then st
    else
      var c := st.calls[call];
      var st1 := st.(calls := st.calls - {call});
      if c.status != ActiveCert || c.serial.None? || c.email !in st.users then st1
      else
        var st2 := RevokeInDb(st1, c.serial.value, now);
        st2.(users := st2.users[c.email := st2.users[c.email].(status := RevokedCert, revokedAt := Some(now))])
  }

  /** The CA's revocation, guarded by the status; it does not know the users table. */
  function CaRevoke(st: State, serial: string, reason: string, now: int): State {
    if serial !in st.certs || st.certs[serial].status != Active then st
    else
      st.(certs := st.certs[serial := st.certs[serial].(status := Revoked, revokedAt := Some(now), reason := reason)],
          revocations := if serial in st.revocations then st.revocations
                         else st.revocations[serial := Revocation(now, reason)])
  }

  /** Charger and contract certificates. */
  function IssueOther(st: State, serial: string, notAfter: int): State {
    if serial in st.certs then st else st.(certs := st.certs[serial := Cert(Active, notAfter, None, "")])
  }

  datatype Step =
    | CreateStep(email: string, serial: string, now: int)
    | CreatePlainStep(email: string)
    | ReadStep(call: nat, email: string)
    | IssueStep(call: nat, serial: string, now: int)
    | RevokeStep(call: nat, now: int)
    | CaRevokeStep(serial: string, reason: string, now: int)
    | IssueOtherStep(serial: string, notAfter: int)

  function Next(st: State, step: Step): State {
    match step
    case CreateStep(email, serial, now) => Create(st, email, serial, now)
    case CreatePlainStep(email) => CreatePlain(st, email)
    case ReadStep(call, email) => ReadUser(st, call, email)
    case IssueStep(call, serial, now) => Issue(st, call, serial, now)
    case RevokeStep(call, now) => Revoke(st, call, now)
    case CaRevokeStep(serial, reason, now) => CaRevoke(st, serial, reason, now)
    case IssueOtherStep(serial, notAfter) => IssueOther(st, serial, notAfter)
  }

  function Exec(st: State, steps: seq<Step>): State {
    if steps == [] then st else Next(Exec(st, steps[..|steps| - 1]), steps[|steps| - 1])
  }

  // ---------------------------------------------------------------- answers

  /** RFC 6960 section 2.2. */
  datatype OcspStatus = Good | RevokedAt(at: Option<int>) | Unknown

  function Answer(status: CertStatus, revokedAt: Option<int>, notAfter: Option<int>, now: int): OcspStatus {
    if status == Revoked then RevokedAt(revokedAt)
    else if notAfter.Some? && notAfter.value < now then RevokedAt(notAfter)
    else Good
  }

  /** What the responder makes of a row of the users table. */
  function FromUser(u: User, now: int): OcspStatus {
    Answer(if u.status == RevokedCert then Revoked else Active, u.revokedAt, u.expires, now)
  }

  /** The certificate's row decides; without one, a row of the users table with that serial. */
  ghost predicate OcspAnswers(st: State, serial: string, now: int, status: OcspStatus) {
    if serial in st.certs then status == Ocsp(st, serial, now)
    else if exists email :: email in st.users && st.users[email].serial == Some(serial) then
      exists email :: email in st.users && st.users[email].serial == Some(serial)
                   && status == FromUser(st.users[email], now)
    else status == Unknown
  }

  function Ocsp(st: State, serial: string, now: int): OcspStatus {
    if serial in st.certs then
      Answer(st.certs[serial].status, st.certs[serial].revokedAt, Some(st.certs[serial].notAfter), now)
    else Unknown
  }

  /** verify_client_cert: the users table decides. */
  predicate Verified(u: User, now: int) {
    u.status == ActiveCert && !(u.expires.Some? && u.expires.value < now)
  }

  // ---------------------------------------------------------------- invariant

  ghost predicate TablesAgree(st: State) {
    && st.revocations.Keys <= st.certs.Keys
    && forall s :: s in st.certs ==> (st.certs[s].status == Revoked <==> s in st.revocations)
  }

  ghost predicate UserOk(st: State, email: string, u: User) {
    && (u.status == NoCert <==> u.serial.None?)
    && (u.serial.Some? ==>
          && u.serial.value in st.certs && u.serial.value in st.issued && st.issued[u.serial.value] == email
          && u.expires == Some(st.certs[u.serial.value].notAfter))
  }

  ghost predicate CallOk(st: State, c: Call) {
    && c.email in st.users && (c.status == NoCert <==> c.serial.None?)
    && (c.serial.Some? ==> c.serial.value in st.certs && st.users[c.email].serial.Some?)
  }

  ghost predicate Inv(st: State) {
    && TablesAgree(st)
    && (forall email :: email in st.users ==> UserOk(st, email, st.users[email]))
    && (forall call :: call in st.calls ==> CallOk(st, st.calls[call]))
    && (forall s :: s in st.issued ==> s in st.certs && st.issued[s] in st.users)
  }

  lemma RevokeInDbKeeps(st: State, serial: string, now: int)
    requires Inv(st)
    ensures Inv(RevokeInDb(st, serial, now))
  {
  }

  lemma GiveCertKeeps(st: State, email: string, serial: string, now: int)
    requires Inv(st) && serial !in st.certs
    ensures Inv(GiveCert(st, email, serial, now))
  {
    var st' := GiveCert(st, email, serial, now);
    forall e | e in st'.users ensures UserOk(st', e, st'.users[e]) {
      if e != email {
        assert UserOk(st, e, st.users[e]);
      }
    }
    forall call | call in st'.calls ensures CallOk(st', st'.calls[call]) {
      assert CallOk(st, st.calls[call]);
    }
  }

  lemma WithoutCallKeeps(st: State, call: nat)
    requires Inv(st)
    ensures Inv(st.(calls := st.calls - {call}))
  {
  }

  lemma IssueKeeps(st: State, step: Step)
    requires Inv(st) && step.IssueStep?
    ensures Inv(Next(st, step))
  {
    if step.call in st.calls && step.serial !in st.certs {
      var c := st.calls[step.call];
      var st1 := st.(calls := st.calls - {step.call});
      WithoutCallKeeps(st, step.call);
      if c.serial.Some? && c.status == ActiveCert {
        RevokeInDbKeeps(st1, c.serial.value, step.now);
        GiveCertKeeps(RevokeInDb(st1, c.serial.value, step.now), c.email, step.serial, step.now);
      } else {
        GiveCertKeeps(st1, c.email, step.serial, step.now);
      }
    }
  }

  lemma MarkRevokedKeeps(st: State, email: string, now: int)
    requires Inv(st) && email in st.users && st.users[email].serial.Some?
    ensures Inv(st.(users := st.users[email := st.users[email].(status := RevokedCert, revokedAt := Some(now))]))
  {
  }

  lemma RevokeKeeps(st: State, step: Step)
    requires Inv(st) && step.RevokeStep?
    ensures Inv(Next(st, step))
  {
    if step.call in st.calls {
      var c := st.calls[step.call];
      assert CallOk(st, c);
      WithoutCallKeeps(st, step.call);
      if c.status == ActiveCert && c.serial.Some? {
        var st1 := st.(calls := st.calls - {step.call});
        RevokeInDbKeeps(st1, c.serial.value, step.now);
        MarkRevokedKeeps(RevokeInDb(st1, c.serial.value, step.now), c.email, step.now);
      }
    }
  }

  lemma CreateKeeps(st: State, step: Step)
    requires Inv(st) && step.CreateStep?
    ensures Inv(Next(st, step))
  {
    if step.email !in st.users && step.serial !in st.certs {
      GiveCertKeeps(st, step.email, step.serial, step.now);
    }
  }

  lemma CreatePlainKeeps(st: State, email: string)
    requires Inv(st)
    ensures Inv(CreatePlain(st, email))
  {
    var st' := CreatePlain(st, email);
    forall e | e in st'.users ensures UserOk(st', e, st'.users[e]) {
      if e in st.users {
        assert UserOk(st, e, st.users[e]);
      }
    }
    forall call | call in st'.calls ensures CallOk(st', st'.calls[call]) {
      assert CallOk(st, st.calls[call]);
    }
  }

  /** The steps that leave users and calls alone. */
  lemma CertsOnlyKeeps(st: State, st': State)
    requires Inv(st) && TablesAgree(st')
    requires st'.users == st.users && st'.calls == st.calls && st'.issued == st.issued
    requires forall s :: s in st.certs ==> s in st'.certs && st'.certs[s].notAfter == st.certs[s].notAfter
    ensures Inv(st')
  {
  }

  lemma ReadUserKeeps(st: State, step: Step)
    requires Inv(st) && step.ReadStep?
    ensures Inv(Next(st, step))
  {
  }

  lemma NextKeeps(st: State, step: Step)
    requires Inv(st)
    ensures Inv(Next(st, step))
  {
    match step
    case CreateStep(_, _, _) => CreateKeeps(st, step);
    case CreatePlainStep(email) => CreatePlainKeeps(st, email);
    case ReadStep(_, _) => ReadUserKeeps(st, step);
    case IssueStep(_, _, _) => IssueKeeps(st, step);
    case RevokeStep(_, _) => RevokeKeeps(st, step);
    case CaRevokeStep(serial, reason, now) => CertsOnlyKeeps(st, CaRevoke(st, serial, reason, now));
    case IssueOtherStep(serial, notAfter) => CertsOnlyKeeps(st, IssueOther(st, serial, notAfter));
  }

  lemma {:induction false} RunKeeps(st: State, steps: seq<Step>)
    requires Inv(st)
    ensures Inv(Exec(st, steps))
  {
    if steps != [] {
      RunKeeps(st, steps[..|steps| - 1]);
      NextKeeps(Exec(st, steps[..|steps| - 1]), steps[|steps| - 1]);
    }
  }
}
