/** The decisions of the two ledger flows, `addTranscript` and
    `decryptGrade`: which external calls they make, in which order, and how
    each outcome of those calls is classified. The awaited calls are inputs
    (`Attempt` values); the page state they update is in `AppState`. */
module Lifecycle {
  import opened Common
  import opened Text
  import opened Transcripts
  import opened AddForm

  /** The arguments `createBusinessData` is called with (the ciphertext and
      its proof stand for the plaintext `grade` handed to `encrypt`). */
  datatype Submission = Submission(
    id: string,
    name: string,
    grade: nat,
    creditHours: nat,
    publicValue2: nat,
    description: string)

  /** External calls, in the order the flows make them. */
  datatype Call =
    | ReadContract            // getContractReadOnly()
    | SignerContract          // getContractWithSigner()
    | ReadRecord(id: string)  // getBusinessData(id)
    | ReadHandle(id: string)  // getEncryptedValue(id)
    | Decrypt(handle: string) // verifyDecryption([handle], ...), on-chain persistence included
    | Encrypt(value: nat)     // encrypt(contractAddress, address, value)
    | CreateRecord(submission: Submission)
    | AwaitConfirmation       // tx.wait()
    | Reload                  // loadData()

  // ---------------------------------------------------------------------
  // addTranscript

  /** How the awaited calls of `addTranscript` settle. */
  datatype AddEnv = AddEnv(
    signerContract: bool,
    encryption: Attempt<()>,
    creation: Attempt<()>,
    confirmation: Attempt<()>)

  datatype AddOutcome = AddNotConnected | AddFailed(message: Option<string>) | Added

  const NoSignerMessage: string := "Failed to get contract with signer"

  /** The record `addTranscript` submits for the form at wall-clock time
      `now`: the grade is `parseInt(grade) || 0` with no range check, the
      credits `parseInt(creditHours) || 1`, and the second public value is
      always 1. */
  function SubmissionFor(form: Form, now: nat): (s: Submission)
    ensures s.grade == GradeValue(form) && s.creditHours == CreditValue(form) >= 1
    ensures s.publicValue2 == 1 && s.name == Field(form, "courseName")
  {
    Submission(
      "course-" + DecimalString(now),
      Field(form, "courseName"),
      GradeValue(form),
      CreditValue(form),
      1,
      "Grade for " + Field(form, "courseName") + " - " + Field(form, "semester"))
  }

  /** Whether a step threw before the confirmation settled. */
  predicate AddStepThrew(env: AddEnv)
  {
    env.encryption.Threw? || env.creation.Threw? || env.confirmation.Threw?
  }

  /** How `addTranscript` ends: disconnected before anything is tried; a
      success exactly when a signer was obtained and no awaited step threw;
      otherwise a failure carrying the message of the first step that did
      (the missing signer raises its own message). */
  function AddOutcomeOf(connected: bool, env: AddEnv): (o: AddOutcome)
    ensures o.AddNotConnected? <==> !connected
    ensures o.Added? <==> connected && env.signerContract && !AddStepThrew(env)
    ensures o.AddFailed? && env.signerContract ==>
              o.message == (if env.encryption.Threw? then env.encryption.message
                            else if env.creation.Threw? then env.creation.message
                            else env.confirmation.message)
    ensures o.AddFailed? && !env.signerContract ==> o.message == Some(NoSignerMessage)
  {
    if !connected then AddNotConnected
    else if !env.signerContract then AddFailed(Some(NoSignerMessage))
    else if env.encryption.Threw? then AddFailed(env.encryption.message)
    else if env.creation.Threw? then AddFailed(env.creation.message)
    else if env.confirmation.Threw? then AddFailed(env.confirmation.message)
    else Added
  }

  /** Every step of `addTranscript`'s `try` block, in order, when none throws. */
  function AddSequence(form: Form, now: nat): seq<Call>
  {
    [SignerContract, Encrypt(GradeValue(form)), CreateRecord(SubmissionFor(form, now)), AwaitConfirmation]
  }

  /** The calls of `addTranscript`'s `try` block up to the one that settles
      its outcome: a prefix of the full sequence that stops at the first
      step that fails, or runs to the confirmation. */
  function AddSteps(form: Form, now: nat, env: AddEnv): (s: seq<Call>)
    ensures s <= AddSequence(form, now)
    ensures |s| == (if !env.signerContract then 1
                    else if env.encryption.Threw? then 2
                    else if env.creation.Threw? then 3
                    else 4)
  {
    if !env.signerContract then [SignerContract]
    else if env.encryption.Threw? then [SignerContract, Encrypt(GradeValue(form))]
    else
      var upToCreate := [SignerContract, Encrypt(GradeValue(form)), CreateRecord(SubmissionFor(form, now))];
      if env.creation.Threw? then upToCreate
      else upToCreate + [AwaitConfirmation]
  }

  /** Every call `addTranscript` makes: nothing when disconnected; otherwise
      its steps, then a reload exactly when the creation is confirmed. */
  function AddCalls(connected: bool, form: Form, now: nat, env: AddEnv): (r: seq<Call>)
    ensures !connected ==> r == []
    ensures connected ==> AddSteps(form, now, env) <= r
    ensures connected ==> |r| == |AddSteps(form, now, env)| + (if AddOutcomeOf(connected, env).Added? then 1 else 0)
    ensures Reload in r <==> AddOutcomeOf(connected, env).Added?
  {
    if !connected then []
    else if AddOutcomeOf(connected, env) == Added then AddSteps(form, now, env) + [Reload]
    else AddSteps(form, now, env)
  }

  /** A record is created only after its grade was encrypted, and the page
      reloads only after a confirmed creation. */
  lemma AddCallOrder(connected: bool, form: Form, now: nat, env: AddEnv)
    ensures var calls := AddCalls(connected, form, now, env);
            (CreateRecord(SubmissionFor(form, now)) in calls ==>
               |calls| >= 3 && calls[1] == Encrypt(GradeValue(form)) && calls[2] == CreateRecord(SubmissionFor(form, now)))
            && (Reload in calls <==> AddOutcomeOf(connected, env) == Added)
            && (AddOutcomeOf(connected, env).AddFailed? ==> Reload !in calls)
  {
  }

  /** A submitted course, once stored and reloaded, shows its submitted
      credits and is labelled "Semester 1"; the average-grade metric then
      averages those credit hours. */
  lemma SubmittedCourseReloads(form: Form, now: nat, timestamp: nat, creator: string)
    ensures var s := SubmissionFor(form, now);
            var t := Normalise(s.id, LedgerRecord(s.name, s.creditHours, s.publicValue2, timestamp, creator, false, 0));
            t.creditHours == CreditValue(form) && t.publicValue1 == CreditValue(form)
            && t.semester == "Semester 1" && !t.isVerified
  {
    assert DecimalString(1) == "1";
  }

  // ---------------------------------------------------------------------
  // decryptGrade

  /** How the awaited calls of `decryptGrade` settle. */
  datatype RevealEnv = RevealEnv(
    readContract: bool,
    record: Attempt<LedgerRecord>,
    signerContract: bool,
    handle: Attempt<string>,
    decryption: Attempt<map<string, nat>>)

  datatype RevealOutcome =
    | RevealNotConnected
    | NoReadContract
    | StoredValue(stored: nat)    // the ledger already holds a verified value
    | NoSigner
    | Revealed(clear: JsNumber)   // fresh decryption, persisted on-chain
    | AlreadyVerifiedRace         // the persistence was refused as already verified
    | RevealFailed

  const AlreadyVerifiedPhrase: string := "Data already verified"

  /** The `catch` block's classification of a thrown error. */
  function ThrownOutcome(message: Option<string>): (o: RevealOutcome)
    ensures o == AlreadyVerifiedRace <==> message.Some? && Contains(message.value, AlreadyVerifiedPhrase)
    ensures o == AlreadyVerifiedRace || o == RevealFailed
  {
    if message.Some? && Contains(message.value, AlreadyVerifiedPhrase) then AlreadyVerifiedRace
    else RevealFailed
  }

  /** Whether one of the awaited steps of `decryptGrade` threw: the record
      read, or, for an unverified record once a signer was obtained, the
      handle read or the gateway. */
  predicate RevealStepThrew(env: RevealEnv)
  {
    env.record.Threw? ||
    (!env.record.value.isVerified && env.signerContract &&
     (env.handle.Threw? || env.decryption.Threw?))
  }

  /** How `decryptGrade` ends. The outcomes partition the inputs: the fast
      path exactly for a record read as verified, a fresh reveal exactly
      when every step of the slow path succeeded, and the `catch` block's
      classification exactly when a step threw. */
  function RevealOf(connected: bool, env: RevealEnv): (o: RevealOutcome)
    ensures o.RevealNotConnected? <==> !connected
    ensures o.NoReadContract? <==> connected && !env.readContract
    ensures o.StoredValue? <==> connected && env.readContract && env.record.Done? && env.record.value.isVerified
    ensures o.StoredValue? ==> o.stored == env.record.value.decryptedValue
    ensures o.NoSigner? <==>
              connected && env.readContract && env.record.Done? && !env.record.value.isVerified && !env.signerContract
    ensures o.Revealed? <==>
              connected && env.readContract && env.record.Done? && !env.record.value.isVerified
              && env.signerContract && env.handle.Done? && env.decryption.Done?
    ensures (o.AlreadyVerifiedRace? || o.RevealFailed?) <==> connected && env.readContract && RevealStepThrew(env)
  {
    if !connected then RevealNotConnected
    else if !env.readContract then NoReadContract
    else match env.record
      case Threw(m) => ThrownOutcome(m)
      case Done(rec) =>
        if rec.isVerified then StoredValue(OrDefault(Some(rec.decryptedValue), 0))
        else if !env.signerContract then NoSigner
        else match env.handle
          case Threw(m) => ThrownOutcome(m)
          case Done(h) =>
            match env.decryption
            case Threw(m) => ThrownOutcome(m)
            case Done(clear) => Revealed(if h in clear then Num(clear[h]) else NaN)
  }

  /** The value `decryptGrade` resolves to; None is `null`. */
  function RevealResult(o: RevealOutcome): (r: Option<JsNumber>)
    ensures r.Some? <==> o.StoredValue? || o.Revealed?
  {
    match o
    case StoredValue(v) => Some(Num(v))
    case Revealed(v) => Some(v)
    case _ => None
  }

  /** The outcomes after which `decryptGrade` awaits `loadData()`. */
  predicate RevealReloads(o: RevealOutcome) { o.Revealed? || o.AlreadyVerifiedRace? }

  /** Every call `decryptGrade` would make before it reloads or returns. */
  function RevealSequence(id: string, env: RevealEnv): seq<Call>
  {
    [ReadContract, ReadRecord(id), SignerContract, ReadHandle(id)]
    + if env.handle.Done? then [Decrypt(env.handle.value)] else []
  }

  /** The calls `decryptGrade` makes before its outcome is known: a prefix of
      the full sequence, empty exactly when disconnected, and stopping after
      the record read on the fast path. */
  function RevealSteps(connected: bool, id: string, env: RevealEnv): (s: seq<Call>)
    ensures s <= RevealSequence(id, env)
    ensures s == [] <==> !connected
    ensures RevealOf(connected, env).StoredValue? ==> |s| == 2
    ensures RevealOf(connected, env).Revealed? ==> |s| == 5
  {
    if !connected then []
    else if !env.readContract then [ReadContract]
    else if env.record.Threw? || env.record.value.isVerified then [ReadContract, ReadRecord(id)]
    else if !env.signerContract then [ReadContract, ReadRecord(id), SignerContract]
    else if env.handle.Threw? then [ReadContract, ReadRecord(id), SignerContract, ReadHandle(id)]
    else [ReadContract, ReadRecord(id), SignerContract, ReadHandle(id), Decrypt(env.handle.value)]
  }

  /** Every call `decryptGrade` makes: its steps, then one reload exactly
      after a fresh reveal or the already-verified race. */
  function RevealCalls(connected: bool, id: string, env: RevealEnv): (r: seq<Call>)
    ensures RevealSteps(connected, id, env) <= r
    ensures |r| == |RevealSteps(connected, id, env)| + (if RevealReloads(RevealOf(connected, env)) then 1 else 0)
    ensures Reload in r <==> RevealReloads(RevealOf(connected, env))
  {
    RevealSteps(connected, id, env) + if RevealReloads(RevealOf(connected, env)) then [Reload] else []
  }

  /** Fast path: a record the ledger reports verified yields its stored value
      (0 when none) with no signer and no decryption call. */
  lemma VerifiedFastPath(id: string, env: RevealEnv, rec: LedgerRecord)
    requires env.readContract && env.record == Done(rec) && rec.isVerified
    ensures RevealResult(RevealOf(true, env)) == Some(Num(rec.decryptedValue))
    ensures forall c :: c in RevealCalls(true, id, env) ==> !c.SignerContract? && !c.Decrypt?
  {
  }

  /** The decryption gateway is invoked at most once, for the record just
      read as unverified, after a signer was obtained. */
  lemma DecryptOnlyWhenUnverified(connected: bool, id: string, env: RevealEnv)
    ensures var calls := RevealCalls(connected, id, env);
            forall k :: 0 <= k < |calls| && calls[k].Decrypt? ==>
              k == 4 && connected && env.readContract && env.record.Done? && !env.record.value.isVerified
              && env.signerContract && calls[k] == Decrypt(env.handle.value) && calls[3] == ReadHandle(id)
  {
  }

  /** An error reporting "Data already verified", thrown by any step, ends
      in a reload and a null result; any other error ends in a null result
      without a reload. */
  lemma ThrownErrorsAreClassified(id: string, env: RevealEnv)
    ensures var o := RevealOf(true, env);
            var calls := RevealCalls(true, id, env);
            (o == AlreadyVerifiedRace ==> RevealResult(o) == None && calls[|calls| - 1] == Reload)
            && (o == RevealFailed ==> RevealResult(o) == None && Reload !in calls)
  {
  }

  /** The outcome is a race or a failure exactly when some awaited step
      threw, and which of the two is decided by the message alone. */
  lemma ThrowsDecideOutcome(env: RevealEnv, m: Option<string>)
    requires env.readContract
    requires env.record == Threw(m) ||
             (env.record.Done? && !env.record.value.isVerified && env.signerContract &&
              (env.handle == Threw(m) || (env.handle.Done? && env.decryption == Threw(m))))
    ensures RevealOf(true, env) == ThrownOutcome(m)
  {
  }

  /** A fresh reveal resolves to the clear value keyed by the very handle
      read for the record, or NaN when the gateway's map lacks that key. */
  lemma RevealedValueIsKeyed(env: RevealEnv, h: string, clear: map<string, nat>)
    requires env.readContract && env.record.Done? && !env.record.value.isVerified
    requires env.signerContract && env.handle == Done(h) && env.decryption == Done(clear)
    ensures RevealResult(RevealOf(true, env)) == Some(if h in clear then Num(clear[h]) else NaN)
  {
  }

  const WalletMissingBanner: Banner := Banner(true, Error, "Please connect wallet first")
  const AlreadyVerifiedBanner: Banner := Banner(true, Success, "Grade already verified")
  const RevealedBanner: Banner := Banner(true, Success, "Grade decrypted successfully!")
  const RevealFailedBanner: Banner := Banner(true, Error, "Decryption failed")

  /** The banner `decryptGrade` leaves behind. In the race case the success
      banner is set before the reload, so a reload whose listing throws
      replaces it with "Failed to load data"; the fresh-reveal banner is set
      after the reload and always stands. A missing contract handle leaves
      the banner as it was. */
  function RevealBanner(o: RevealOutcome, before: Banner, reloadFails: bool): (b: Banner)
    ensures (o.NoReadContract? || o.NoSigner?) ==> b == before
    ensures o.RevealNotConnected? ==> b == WalletMissingBanner
    ensures o.StoredValue? ==> b == AlreadyVerifiedBanner
    ensures o.Revealed? ==> b == RevealedBanner
    ensures o.RevealFailed? ==> b == RevealFailedBanner
    ensures o.AlreadyVerifiedRace? ==> b == if reloadFails then LoadFailedBanner else AlreadyVerifiedBanner
    ensures o.RevealFailed? || o.RevealNotConnected? ==> b.kind == Error
    ensures o.StoredValue? || o.Revealed? ==> b.kind == Success
    ensures o.AlreadyVerifiedRace? ==> (b.kind == Success <==> !reloadFails)
  {
    match o
    case RevealNotConnected => WalletMissingBanner
    case NoReadContract => before
    case StoredValue(_) => AlreadyVerifiedBanner
    case NoSigner => before
    case Revealed(_) => RevealedBanner
    case AlreadyVerifiedRace => if reloadFails then LoadFailedBanner else AlreadyVerifiedBanner
    case RevealFailed => RevealFailedBanner
  }

  const AddedBanner: Banner := Banner(true, Success, "Transcript added successfully!")

  /** The banner `addTranscript` leaves behind: on success it is set before
      the reload, which may replace it with "Failed to load data". */
  function AddBanner(o: AddOutcome, reloadFails: bool): (b: Banner)
    ensures o.AddNotConnected? ==> b == WalletMissingBanner
    ensures o.AddFailed? ==> b == Banner(true, Error, SubmissionErrorMessage(o.message))
    ensures o.Added? ==> (b == AddedBanner <==> !reloadFails)
    ensures o.Added? ==> b == if reloadFails then LoadFailedBanner else AddedBanner
  {
    match o
    case AddNotConnected => WalletMissingBanner
    case AddFailed(m) => Banner(true, Error, SubmissionErrorMessage(m))
    case Added => if reloadFails then LoadFailedBanner else AddedBanner
  }
}
