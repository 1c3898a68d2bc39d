/**
 * The one-time-password handlers of server/Routes/otp.ts: `/sendOTP` stores a
 * fresh code for an e-mail address and `/validateOTP` checks a submitted code
 * once. Times are milliseconds since the epoch.
 */
module OtpRoutes {
  import opened Wrappers
  import opened Store

  /** Ten minutes, the lifetime of a code. */
  const Lifetime: int := 10 * 60 * 1000

  /** The outcome of the checks of `/validateOTP`, in the order the handler makes them. */
  datatype Verdict = NotFound | AlreadyUsed | Expired | Invalid | Valid

  function Message(v: Verdict): string {
    match v
    case NotFound => "OTP not found"
    case AlreadyUsed => "OTP already used"
    case Expired => "OTP has expired"
    case Invalid => "Invalid OTP"
    case Valid => "Validation Successful"
  }

  /** `submitted` is the request's `otp`, `None` when it is absent. */
  function Check(rec: Option<OtpRecord>, now: int, submitted: Option<int>): (v: Verdict)
    ensures v == NotFound <==> rec.None?
    ensures v == AlreadyUsed <==> rec.Some? && rec.value.isUsed
    ensures v == Expired <==> rec.Some? && !rec.value.isUsed && now > rec.value.createdOn + Lifetime
    ensures v == Valid <==>
      rec.Some? && !rec.value.isUsed && now <= rec.value.createdOn + Lifetime && submitted == Some(rec.value.code)
  {
    if rec.None? then NotFound
    else if rec.value.isUsed then AlreadyUsed
    else if now > rec.value.createdOn + Lifetime then Expired
    else if submitted != Some(rec.value.code) then Invalid
    else Valid
  }

  function Lookup(otps: map<string, OtpRecord>, email: string): Option<OtpRecord> {
    if email in otps then Some(otps[email]) else None
  }

  /** `/validateOTP`: the reply and the records afterwards. */
  function Validate(otps: map<string, OtpRecord>, email: string, now: int, submitted: Option<int>)
    : (r: (Reply<string>, map<string, OtpRecord>))
    ensures var v := Check(Lookup(otps, email), now, submitted);
      && (v != Valid ==> r == (Err(400, Message(v)), otps))
      && (v == Valid ==> r == (Ok(200, Message(v)), otps[email := otps[email].(isUsed := true)]))
  {
    var v := Check(Lookup(otps, email), now, submitted);
    if v != Valid then (Err(400, Message(v)), otps)
    else (Ok(200, Message(v)), otps[email := otps[email].(isUsed := true)])
  }

  /** `Math.floor(1000 + x * 9000)` for `x = Math.random()`. */
  function Code(x: real): (c: int)
    requires 0.0 <= x < 1.0
    ensures 1000 <= c <= 9999
  {
    (1000.0 + x * 9000.0).Floor
  }

  /**
   * `/sendOTP`: the record is replaced (or created) before the e-mail is sent;
   * `emailSent` is what the mailer reports.
   */
  function Send(otps: map<string, OtpRecord>, email: string, now: int, x: real, emailSent: bool)
    : (r: (Reply<string>, map<string, OtpRecord>))
    requires 0.0 <= x < 1.0
    ensures r.1.Keys == otps.Keys + {email}
    ensures r.1[email] == OtpRecord(Code(x), false, now)
    ensures forall e :: e in otps && e != email ==> r.1[e] == otps[e]
    ensures r.0 == if emailSent then Ok(200, "OTP sent successfully!") else Err(500, "Failed to send OTP")
  {
    var otps' := otps[email := OtpRecord(Code(x), false, now)];
    if emailSent then (Ok(200, "OTP sent successfully!"), otps') else (Err(500, "Failed to send OTP"), otps')
  }

  method ValidateOtp(db: Database, email: string, now: int, submitted: Option<int>) returns (reply: Reply<string>)
    modifies db
    ensures (reply, db.otps) == Validate(old(db.otps), email, now, submitted)
    ensures db.users == old(db.users) && db.projects == old(db.projects) && db.tasks == old(db.tasks)
  {
    var r := Validate(db.otps, email, now, submitted);
    reply := r.0;
    db.otps := r.1;
  }

  method SendOtp(db: Database, email: string, now: int, x: real, emailSent: bool) returns (reply: Reply<string>)
    requires 0.0 <= x < 1.0
    modifies db
    ensures (reply, db.otps) == Send(old(db.otps), email, now, x, emailSent)
    ensures db.users == old(db.users) && db.projects == old(db.projects) && db.tasks == old(db.tasks)
  {
    var r := Send(db.otps, email, now, x, emailSent);
    reply := r.0;
    db.otps := r.1;
  }

  // ---------------------------------------------------------------------------
  // Properties
  // ---------------------------------------------------------------------------

  /** A code is usable once: after a successful validation every further one fails as used. */
  lemma {:induction false} SecondValidationFails(otps: map<string, OtpRecord>, email: string,
                                                 now: int, submitted: Option<int>, later: int, again: Option<int>)
    requires Validate(otps, email, now, submitted).0.Ok?
    ensures Validate(Validate(otps, email, now, submitted).1, email, later, again).0 == Err(400, "OTP already used")
  {
    var otps' := Validate(otps, email, now, submitted).1;
    assert Lookup(otps', email) == Some(otps[email].(isUsed := true));
  }

  /** A code is still accepted exactly at the end of its lifetime and refused one millisecond later. */
  lemma ExpiryIsStrict(rec: OtpRecord)
    requires !rec.isUsed
    ensures Check(Some(rec), rec.createdOn + Lifetime, Some(rec.code)) == Valid
    ensures Check(Some(rec), rec.createdOn + Lifetime + 1, Some(rec.code)) == Expired
  {
  }

  /** A fresh send re-arms the address: its code validates within ten minutes even after an earlier use. */
  lemma {:induction false} SendRearms(otps: map<string, OtpRecord>, email: string, now: int, x: real,
                                      emailSent: bool, later: int)
    requires 0.0 <= x < 1.0
    requires now <= later <= now + Lifetime
    ensures Validate(Send(otps, email, now, x, emailSent).1, email, later, Some(Code(x))).0 == Ok(200, "Validation Successful")
  {
    var otps' := Send(otps, email, now, x, emailSent).1;
    assert Lookup(otps', email) == Some(OtpRecord(Code(x), false, now));
  }

  /** Validation for one address leaves the records of every other address alone. */
  lemma ValidateIsLocal(otps: map<string, OtpRecord>, email: string, now: int, submitted: Option<int>, other: string)
    requires other != email && other in otps
    ensures var otps' := Validate(otps, email, now, submitted).1;
      other in otps' && otps'[other] == otps[other]
  {
  }
}
