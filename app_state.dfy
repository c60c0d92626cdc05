/** The page component's state (`App`'s `useState` hooks) and the handlers
    that step through it: reload, form edits, adding a course, revealing a
    grade, and the detail modal's reveal button. Awaited calls are inputs;
    `calls` records, as a ghost log, every external call made. */
module AppState {
  import opened Common
  import opened Text
  import opened Transcripts
  import opened GpaStats
  import opened AddForm
  import opened Lifecycle
  import opened DetailView

  const AddingBanner: Banner := Banner(true, Pending, "Adding encrypted transcript...")
  const ConfirmingBanner: Banner := Banner(true, Pending, "Waiting for confirmation...")
  const VerifyingBanner: Banner := Banner(true, Pending, "Verifying grade...")

  class App {
    var transcripts: seq<Transcript>
    var isRefreshing: bool
    var status: Banner
    var newTranscript: Form
    var addingTranscript: bool
    var showAddModal: bool
    var selected: Option<Transcript>
    var decryptedGrade: Option<JsNumber>
    var isDecrypting: bool
    ghost var calls: seq<Call>

    /** The numeric form inputs hold digits only. */
    ghost predicate Valid()
      reads this`newTranscript
    {
      Sanitised(newTranscript)
    }

    /** `gpaStats`: the effect on `transcripts` recomputes it after every
        change of the list, so it is a function of the list. */
    function GpaStatsNow(): (s: Stats)
      reads this
      ensures s.verifiedCourses <= |transcripts|
    {
      CalculateGpaStats(transcripts)
    }

    constructor ()
      ensures Valid()
      ensures transcripts == [] && GpaStatsNow() == ZeroStats && !isRefreshing && status == HiddenBanner
      ensures newTranscript == InitialForm && !addingTranscript && !showAddModal
      ensures selected == None && decryptedGrade == None && !isDecrypting && calls == []
    {
      transcripts := [];
      isRefreshing := false;
      status := HiddenBanner;
      newTranscript := InitialForm;
      addingTranscript := false;
      showAddModal := false;
      selected := None;
      decryptedGrade := None;
      isDecrypting := false;
      calls := [];
      InitialFormSanitised();
    }

    /** `loadData`: replace the whole list from the ledger, or keep it. The
        open detail modal keeps its own snapshot of the selected course. */
    method LoadData(connected: bool, ledger: Ledger)
      modifies this`transcripts, this`status, this`isRefreshing, this`calls
      ensures transcripts == Reloaded(old(transcripts), connected, ledger)
      ensures status == if ReloadFails(connected, ledger) then LoadFailedBanner else old(status)
      ensures isRefreshing == (!connected && old(isRefreshing))
      ensures calls == old(calls) + [Reload]
    {
      calls := calls + [Reload];
      if !connected {
        return;
      }
      isRefreshing := true;
      if ledger.readable {
        match ledger.ids
        case Threw(_) =>
          status := LoadFailedBanner;
        case Done(ids) =>
          var list := BuildTranscripts(ids, ledger.records);
          transcripts := list;
      }
      isRefreshing := false;
    }

    /** `handleChange` of the add-course form. */
    method HandleFormChange(name: string, value: string)
      requires Valid()
      modifies this`newTranscript
      ensures Valid()
      ensures newTranscript == HandleChange(old(newTranscript), name, value)
    {
      HandleChangeKeepsSanitised(newTranscript, name, value);
      newTranscript := HandleChange(newTranscript, name, value);
    }

    /** The awaited steps of `addTranscript`'s `try` block, from obtaining
        the signer to the creation's confirmation, stopping at the first that
        throws. The "Waiting for confirmation..." banner goes up once the
        creation was sent. On the sanitised form `parseInt` reads the whole
        grade input, so the value encrypted is the number its digits spell. */
    method SubmitSteps(now: nat, env: AddEnv) returns (o: AddOutcome)
      requires Valid()
      modifies this`status, this`calls
      ensures o == AddOutcomeOf(true, env)
      ensures calls == old(calls) + AddSteps(newTranscript, now, env)
      ensures env.signerContract ==> Encrypt(DigitsValue(Field(newTranscript, "grade"))) in calls
      ensures status == if env.signerContract && env.encryption.Done? && env.creation.Done?
                        then ConfirmingBanner else old(status)
    {
      calls := calls + [SignerContract];
      if !env.signerContract {
        return AddFailed(Some(NoSignerMessage));
      }
      var grade := GradeValue(newTranscript);
      var submission := SubmissionFor(newTranscript, now);
      calls := calls + [Encrypt(grade)];
      if env.encryption.Threw? {
        return AddFailed(env.encryption.message);
      }
      calls := calls + [CreateRecord(submission)];
      if env.creation.Threw? {
        return AddFailed(env.creation.message);
      }
      status := ConfirmingBanner;
      calls := calls + [AwaitConfirmation];
      if env.confirmation.Threw? {
        return AddFailed(env.confirmation.message);
      }
      o := Added;
    }

    /** `addTranscript`: encrypt the grade, submit the record, await its
        confirmation, reload, then close and reset the form. A failure at any
        step leaves the list and the form as they were. */
    method AddTranscript(connected: bool, now: nat, env: AddEnv, ledger: Ledger)
      requires Valid()
      modifies this`transcripts, this`status, this`isRefreshing, this`calls
      modifies this`newTranscript, this`addingTranscript, this`showAddModal
      ensures Valid()
      ensures var o := AddOutcomeOf(connected, env);
              && calls == old(calls) + AddCalls(connected, old(newTranscript), now, env)
              && status == AddBanner(o, ReloadFails(connected, ledger))
              && transcripts == (if o.Added? then Reloaded(old(transcripts), connected, ledger) else old(transcripts))
              && newTranscript == (if o.Added? then InitialForm else old(newTranscript))
              && showAddModal == (if o.Added? then false else old(showAddModal))
              && addingTranscript == (if o.AddNotConnected? then old(addingTranscript) else false)
              && isRefreshing == (if o.Added? then false else old(isRefreshing))
    {
      if !connected {
        status := WalletMissingBanner;
        return;
      }
      addingTranscript := true;
      status := AddingBanner;
      ghost var c0, steps := calls, AddSteps(newTranscript, now, env);
      var o := SubmitSteps(now, env);
      if o.AddFailed? {
        FailAdd(o.message);
      } else {
        FinishAdd(connected, ledger);
        assert calls == c0 + (steps + [Reload]);
      }
    }

    /** `addTranscript`'s `catch` and `finally` blocks after a failed step. */
    method FailAdd(message: Option<string>)
      modifies this`status, this`addingTranscript
      ensures status == AddBanner(AddFailed(message), false) && !addingTranscript
    {
      status := Banner(true, Error, SubmissionErrorMessage(message));
      addingTranscript := false;
    }

    /** The end of `addTranscript`'s `try` block once the creation is
        confirmed: the success banner, the reload, then the closed and reset
        form; the `finally` block clears the busy flag. */
    method FinishAdd(connected: bool, ledger: Ledger)
      modifies this`transcripts, this`status, this`isRefreshing, this`calls
      modifies this`newTranscript, this`addingTranscript, this`showAddModal
      ensures Valid()
      ensures calls == old(calls) + [Reload]
      ensures status == AddBanner(Added, ReloadFails(connected, ledger))
      ensures transcripts == Reloaded(old(transcripts), connected, ledger)
      ensures newTranscript == InitialForm && !showAddModal && !addingTranscript
      ensures isRefreshing == (!connected && old(isRefreshing))
    {
      status := AddedBanner;
      LoadData(connected, ledger);
      showAddModal := false;
      newTranscript := InitialForm;
      InitialFormSanitised();
      addingTranscript := false;
    }

    /** The awaited steps of `decryptGrade`'s `try` block before it reloads or
        returns: read the record, and for an unverified one obtain the signer,
        read the handle and run the gateway. A step that throws hands its
        message to the `catch` block's classification. */
    method GatewaySteps(businessId: string, env: RevealEnv) returns (o: RevealOutcome)
      modifies this`calls
      ensures o == RevealOf(true, env)
      ensures calls == old(calls) + RevealSteps(true, businessId, env)
    {
      calls := calls + [ReadContract];
      if !env.readContract {
        return NoReadContract;
      }
      calls := calls + [ReadRecord(businessId)];
      match env.record {
        case Threw(m) =>
          o := ThrownOutcome(m);
        case Done(rec) =>
          if rec.isVerified {
            return StoredValue(OrDefault(Some(rec.decryptedValue), 0));
          }
          calls := calls + [SignerContract];
          if !env.signerContract {
            return NoSigner;
          }
          calls := calls + [ReadHandle(businessId)];
          match env.handle {
            case Threw(m) =>
              o := ThrownOutcome(m);
            case Done(h) =>
              calls := calls + [Decrypt(h)];
              match env.decryption {
                case Threw(m) =>
                  o := ThrownOutcome(m);
                case Done(clear) =>
                  o := Revealed(if h in clear then Num(clear[h]) else NaN);
              }
          }
      }
    }

    /** `decryptGrade(businessId)`: return the ledger's stored value when the
        record is already verified; otherwise decrypt through the gateway,
        which persists the proof on-chain, reload and return the clear value.
        Thrown errors resolve to null, with a reload when the ledger reports
        the record already verified. */
    method DecryptGrade(connected: bool, businessId: string, env: RevealEnv, ledger: Ledger)
      returns (r: Option<JsNumber>)
      modifies this`transcripts, this`status, this`isRefreshing, this`calls, this`isDecrypting
      ensures var o := RevealOf(connected, env);
              && r == RevealResult(o)
              && calls == old(calls) + RevealCalls(connected, businessId, env)
              && status == RevealBanner(o, old(status), ReloadFails(connected, ledger))
              && transcripts == (if RevealReloads(o) then Reloaded(old(transcripts), connected, ledger) else old(transcripts))
              && isRefreshing == (if RevealReloads(o) then false else old(isRefreshing))
              && isDecrypting == (if connected then false else old(isDecrypting))
    {
      if !connected {
        status := WalletMissingBanner;
        return None;
      }
      isDecrypting := true;
      var o := GatewaySteps(businessId, env);
      match o {
        case StoredValue(v) =>
          status := AlreadyVerifiedBanner;
          r := Some(Num(v));
        case Revealed(v) =>
          status := VerifyingBanner;
          LoadData(connected, ledger);
          status := RevealedBanner;
          r := Some(v);
        case AlreadyVerifiedRace =>
          status := AlreadyVerifiedBanner;
          LoadData(connected, ledger);
          r := None;
        case RevealFailed =>
          status := RevealFailedBanner;
          r := None;
        case _ =>
          r := None;
      }
      // the finally block
      isDecrypting := false;
    }

    /** Clicking a course card opens its detail modal. */
    method SelectTranscript(t: Transcript)
      modifies this`selected
      ensures selected == Some(t)
    {
      selected := Some(t);
    }

    /** Closing the detail modal forgets the course and its local value. */
    method CloseDetail()
      modifies this`selected, this`decryptedGrade
      ensures selected == None && decryptedGrade == None
    {
      selected := None;
      decryptedGrade := None;
    }

    /** `handleDecrypt` of the detail modal: a held local value is cleared
        without any call; otherwise `decryptGrade` runs for the selected
        course and a non-null result becomes the local value. */
    method HandleDecrypt(connected: bool, env: RevealEnv, ledger: Ledger)
      requires selected.Some?
      modifies this`transcripts, this`status, this`isRefreshing, this`calls, this`isDecrypting
      modifies this`decryptedGrade
      ensures old(decryptedGrade).Some? ==>
                decryptedGrade == None && calls == old(calls) && status == old(status)
                && transcripts == old(transcripts) && isDecrypting == old(isDecrypting)
                && isRefreshing == old(isRefreshing)
      ensures old(decryptedGrade).None? ==>
                var o := RevealOf(connected, env);
                && decryptedGrade == AfterPress(None, RevealResult(o))
                && calls == old(calls) + RevealCalls(connected, old(selected).value.id, env)
                && status == RevealBanner(o, old(status), ReloadFails(connected, ledger))
                && transcripts == (if RevealReloads(o) then Reloaded(old(transcripts), connected, ledger) else old(transcripts))
                && isRefreshing == (if RevealReloads(o) then false else old(isRefreshing))
                && isDecrypting == (if connected then false else old(isDecrypting))
    {
      if decryptedGrade.Some? {
        decryptedGrade := None;
        return;
      }
      var revealed := DecryptGrade(connected, selected.value.id, env, ledger);
      if revealed.Some? {
        decryptedGrade := revealed;
      }
    }
  }
}
