/** `TranscriptDetailModal`: how one course's grade is shown (ledger-verified
    value, local decryption, or still encrypted), the captions of its
    reveal button, and what a press on that button does to the local value. */
module DetailView {
  import opened Common
  import opened Transcripts

  datatype GradeStatus = OnChainVerified | LocallyDecrypted | FheEncrypted

  /** Verified beats a local value, which beats nothing. */
  function StatusOf(isVerified: bool, local: Option<JsNumber>): (s: GradeStatus)
    ensures s == OnChainVerified <==> isVerified
    ensures s == LocallyDecrypted <==> !isVerified && local.Some?
    ensures s == FheEncrypted <==> !isVerified && local.None?
  {
    if isVerified then OnChainVerified
    else if local.Some? then LocallyDecrypted
    else FheEncrypted
  }

  function StatusLabel(s: GradeStatus): string
  {
    match s
    case OnChainVerified => "On-chain Verified"
    case LocallyDecrypted => "Locally Decrypted"
    case FheEncrypted => "FHE Encrypted"
  }

  /** What the grade box shows: the ledger's stored value, the local value,
      or a padlock. */
  datatype GradeText = StoredText(stored: Option<int>) | LocalText(local: JsNumber) | Padlock

  function GradeShown(t: Transcript, local: Option<JsNumber>): (g: GradeText)
    ensures g.StoredText? <==> StatusOf(t.isVerified, local) == OnChainVerified
    ensures g.LocalText? <==> StatusOf(t.isVerified, local) == LocallyDecrypted
    ensures g.StoredText? ==> g.stored == t.decryptedValue
    ensures g.LocalText? ==> local == Some(g.local)
  {
    if t.isVerified then StoredText(t.decryptedValue)
    else if local.Some? then LocalText(local.value)
    else Padlock
  }

  datatype Caption = CaptionDecrypting | CaptionVerified | CaptionReverify | CaptionVerify

  /** The reveal button's caption: an operation in flight beats everything,
      then the same priority as the status line. */
  function ButtonCaption(isDecrypting: bool, isVerified: bool, local: Option<JsNumber>): (c: Caption)
    ensures c == CaptionDecrypting <==> isDecrypting
    ensures !isDecrypting ==>
              (c == CaptionVerified <==> StatusOf(isVerified, local) == OnChainVerified) &&
              (c == CaptionReverify <==> StatusOf(isVerified, local) == LocallyDecrypted) &&
              (c == CaptionVerify <==> StatusOf(isVerified, local) == FheEncrypted)
  {
    if isDecrypting then CaptionDecrypting
    else if isVerified then CaptionVerified
    else if local.Some? then CaptionReverify
    else CaptionVerify
  }

  function CaptionText(c: Caption): string
  {
    match c
    case CaptionDecrypting => "Decrypting..."
    case CaptionVerified => "\U{2705} Verified"
    case CaptionReverify => "\U{1F504} Re-verify"
    case CaptionVerify => "\U{1F513} Verify Grade"
  }

  /** `handleDecrypt` asks for a reveal only when no local value is held. */
  predicate PressRequestsReveal(local: Option<JsNumber>) { local.None? }

  /** The local value after a press on the reveal button: a held value is
      cleared; otherwise the reveal's result is stored unless it is null. */
  function AfterPress(local: Option<JsNumber>, revealed: Option<JsNumber>): (next: Option<JsNumber>)
    ensures local.Some? ==> next.None?
    ensures local.None? ==> next == revealed
  {
    if local.Some? then None
    else if revealed.Some? then revealed
    else local
  }

  /** On an unverified course, a press that reveals a value shows it as
      "Locally Decrypted"; the next press (which requests nothing) returns
      the course to "FHE Encrypted". */
  lemma PressToggles(t: Transcript, v: JsNumber, anything: Option<JsNumber>)
    requires !t.isVerified
    ensures var once := AfterPress(None, Some(v));
            StatusOf(t.isVerified, once) == LocallyDecrypted && GradeShown(t, once) == LocalText(v)
            && !PressRequestsReveal(once)
            && StatusOf(t.isVerified, AfterPress(once, anything)) == FheEncrypted
  {
  }

  /** A verified course shows the ledger's value whatever is held locally,
      and, with nothing in flight, its button reads "Verified". */
  lemma VerifiedOverridesLocal(t: Transcript, local: Option<JsNumber>)
    requires t.isVerified
    ensures StatusLabel(StatusOf(t.isVerified, local)) == "On-chain Verified"
    ensures GradeShown(t, local) == StoredText(t.decryptedValue)
    ensures CaptionText(ButtonCaption(false, t.isVerified, local)) == "\U{2705} Verified"
  {
  }
}
