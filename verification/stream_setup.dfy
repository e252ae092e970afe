/** The stream-session dialog: before going live a creator names the session,
    picks its pricing mode and amount and whether to record; confirming
    validates the form and writes those choices to the stream row. */
module StreamSetup {
  import opened Common
  import Store

  /** The stream the dialog is opened for, as its caller passes it. */
  datatype SetupStream = SetupStream(
    playbackId: string,
    streamName: Option<string>,
    streamMode: Option<ViewMode>,
    streamAmount: Option<real>,
    record: Option<bool>)

  /** The session fields of a stream row. */
  function FromRow(row: Store.StreamRow): (s: SetupStream)
    ensures s.playbackId == row.playbackId && s.streamName == Some(row.streamName)
    ensures s.streamMode == row.streamMode && s.streamAmount == row.streamAmount && s.record == row.record
  {
    SetupStream(row.playbackId, Some(row.streamName), row.streamMode, row.streamAmount, row.record)
  }

  datatype SessionErrors = SessionErrors(sessionName: Option<string>, amount: Option<string>)

  const NoErrors := SessionErrors(None, None)

  /** The dialog's form. The amount input turns anything that does not parse
      into 0, so the amount is always a number. */
  datatype SessionForm = SessionForm(sessionName: string, mode: ViewMode, amount: real, record: bool, errors: SessionErrors)

  const InitialForm := SessionForm("", Free, 0.0, false, NoErrors)

  /** The load effect: an absent stream changes nothing; otherwise a missing
      name reads as empty, a missing mode as free, a missing or zero amount
      as 0 and a missing record flag as off. Errors are kept. */
  function LoadStream(f: SessionForm, stream: Option<SetupStream>): (r: SessionForm)
    ensures stream.None? ==> r == f
    ensures stream.Some? ==>
      && r.sessionName == OrDefault(stream.value.streamName, "")
      && r.mode == stream.value.streamMode.GetOr(Free)
      && r.amount == NumOr(stream.value.streamAmount, 0.0)
      && r.record == stream.value.record.GetOr(false)
      && r.errors == f.errors
  {
    match stream
    case None => f
    case Some(s) =>
      f.(sessionName := OrDefault(s.streamName, ""), mode := s.streamMode.GetOr(Free),
         amount := NumOr(s.streamAmount, 0.0), record := s.record.GetOr(false))
  }

  // ---------------------------------------------------------------------------
  // Editing

  /** Typing a name clears the name error. */
  function NameChange(f: SessionForm, v: string): (r: SessionForm)
    ensures r.sessionName == v && r.errors.sessionName.None?
    ensures r == f.(sessionName := v, errors := f.errors.(sessionName := None))
  {
    f.(sessionName := v, errors := f.errors.(sessionName := None))
  }

  /** Picking a mode clears the amount error and keeps the amount. */
  function ModeChange(f: SessionForm, mode: ViewMode): (r: SessionForm)
    ensures r.mode == mode && r.errors.amount.None?
    ensures r.amount == f.amount && r.errors.sessionName == f.errors.sessionName
  {
    f.(mode := mode, errors := f.errors.(amount := None))
  }

  /** Typing an amount, where `parsed` is `parseFloat` of the input (None for
      NaN): anything falsy becomes 0; the amount error is cleared. */
  function AmountChange(f: SessionForm, parsed: Option<real>): (r: SessionForm)
    ensures r.amount == (if PresentNum(parsed) then parsed.value else 0.0)
    ensures r.errors.amount.None? && r.mode == f.mode && r.sessionName == f.sessionName
  {
    f.(amount := NumOr(parsed, 0.0), errors := f.errors.(amount := None))
  }

  // ---------------------------------------------------------------------------
  // Validation

  const NameRequired := "Session name is required"
  const NameTooShort := "Session name must be at least 3 characters"
  const NameTooLong := "Session name must be less than 100 characters"
  const AmountRequired := "Amount is required and must be greater than 0"

  /** The name rules on the trimmed name, first failure only, with lengths
      counted in UTF-16 code units as JavaScript counts them; the amount rule
      is checked alongside for a paid mode. */
  function Validate(f: SessionForm): (e: SessionErrors)
    ensures e.sessionName.None? <==> 3 <= Utf16Length(Trim(f.sessionName)) <= 100
    ensures Trim(f.sessionName) == [] ==> e.sessionName == Some(NameRequired)
    ensures 0 < Utf16Length(Trim(f.sessionName)) < 3 ==> e.sessionName == Some(NameTooShort)
    ensures Utf16Length(Trim(f.sessionName)) > 100 ==> e.sessionName == Some(NameTooLong)
    ensures e.amount.Some? <==> f.mode != Free && f.amount <= 0.0
  {
    var t := Trim(f.sessionName);
    SessionErrors(
      if t == [] then Some(NameRequired)
      else if Utf16Length(t) < 3 then Some(NameTooShort)
      else if Utf16Length(t) > 100 then Some(NameTooLong)
      else None,
      if f.mode != Free && f.amount <= 0.0 then Some(AmountRequired) else None)
  }

  predicate Valid(f: SessionForm) {
    Validate(f) == NoErrors
  }

  /** A session with a usable name is valid exactly when it is free or priced
      above zero; switching a form to free removes the amount rule. A name of
      Basic Multilingual Plane characters is measured in characters, while
      one of more than fifty emoji is too long. */
  lemma ValidIff(f: SessionForm)
    ensures Valid(f) <==> 3 <= Utf16Length(Trim(f.sessionName)) <= 100 && (f.mode == Free || f.amount > 0.0)
    ensures (forall i :: 0 <= i < |Trim(f.sessionName)| ==> !Astral(Trim(f.sessionName)[i])) ==>
      (Valid(f) <==> 3 <= |Trim(f.sessionName)| <= 100 && (f.mode == Free || f.amount > 0.0))
    ensures (forall i :: 0 <= i < |Trim(f.sessionName)| ==> Astral(Trim(f.sessionName)[i])) && |Trim(f.sessionName)| > 50 ==>
      Validate(f).sessionName == Some(NameTooLong)
    ensures Validate(ModeChange(f, Free)).amount.None?
  {
  }

  // ---------------------------------------------------------------------------
  // Confirm

  datatype ConfirmOutcome =
    | StreamNotFound
    | Invalid(errors: SessionErrors)
    | Updated(row: Store.StreamRow)
    | Threw(message: string)

  datatype ConfirmStep = ConfirmStep(form: SessionForm, streams: Store.Table<Store.StreamRow>, outcome: ConfirmOutcome)

  /** The update `handleConfirm` sends: the trimmed name, the mode, the
      amount only for a paid mode (null when free), and the record flag. */
  function SessionPatch(f: SessionForm): (p: Store.StreamPatch)
    ensures p.streamName == Some(Trim(f.sessionName))
    ensures p.streamMode == Some(Some(f.mode)) && p.record == Some(Some(f.record))
    ensures p.streamAmount == Some(if f.mode == Free then None else Some(f.amount))
    ensures p.viewMode.None? && p.amount.None? && p.title.None?
  {
    Store.EmptyStreamPatch.(
      streamName := Some(Trim(f.sessionName)),
      streamMode := Some(Some(f.mode)),
      streamAmount := Some(if f.mode != Free then Some(f.amount) else None),
      record := Some(Some(f.record)))
  }

  /** `handleConfirm`: a missing stream or playback id and an invalid form stop
      before the write; otherwise the stream row is updated, and a failed
      update keeps its message (or a generic one). */
  function Confirm(f: SessionForm, stream: Option<SetupStream>, streams: Store.Table<Store.StreamRow>, fault: Option<string>): (s: ConfirmStep)
    ensures s.outcome == StreamNotFound <==> stream.None? || stream.value.playbackId == ""
    ensures s.outcome.Invalid? <==> stream.Some? && stream.value.playbackId != "" && !Valid(f)
    ensures !s.outcome.Updated? ==> s.streams == streams
    ensures s.outcome.Updated? <==>
      stream.Some? && stream.value.playbackId != "" && Valid(f) && fault.None? && stream.value.playbackId in streams
    ensures s.outcome.Updated? ==>
      var id := stream.value.playbackId;
      s.outcome.row == Store.ApplyStreamPatch(streams[id], SessionPatch(f)) && s.streams == streams[id := s.outcome.row]
    ensures s.form == f || s.form == f.(errors := Validate(f))
  {
    match stream
    case None => ConfirmStep(f, streams, StreamNotFound)
    case Some(st) =>
      if st.playbackId == "" then ConfirmStep(f, streams, StreamNotFound)
      else
        var checked := f.(errors := Validate(f));
        if !Valid(f) then ConfirmStep(checked, streams, Invalid(Validate(f)))
        else
          var write := Store.UpdateStream(streams, st.playbackId, SessionPatch(f), fault);
          match write.result
          case Failure(m) =>
            ConfirmStep(checked, streams, Threw(if m == "" then "Failed to update stream settings" else m))
          case Success(row) => ConfirmStep(checked, write.table, Updated(row))
  }

  /** Confirming and reopening the dialog on the saved row gives back the
      trimmed name, the mode, the record flag, and the amount for a paid mode
      (0 for free). */
  lemma ConfirmThenLoad(f: SessionForm, stream: SetupStream, streams: Store.Table<Store.StreamRow>)
    requires Confirm(f, Some(stream), streams, None).outcome.Updated?
    ensures var saved := Confirm(f, Some(stream), streams, None).outcome.row;
      var reloaded := LoadStream(f, Some(FromRow(saved)));
      && reloaded.sessionName == Trim(f.sessionName)
      && reloaded.mode == f.mode
      && reloaded.record == f.record
      && reloaded.amount == (if f.mode == Free then 0.0 else f.amount)
  {
    var saved := Confirm(f, Some(stream), streams, None).outcome.row;
    assert Trim(f.sessionName) != [];
    assert saved.streamName == Trim(f.sessionName);
  }

  /** A free session never leaves an amount in the row. */
  lemma FreeSessionClearsAmount(f: SessionForm, stream: SetupStream, streams: Store.Table<Store.StreamRow>, fault: Option<string>)
    requires f.mode == Free
    requires Confirm(f, Some(stream), streams, fault).outcome.Updated?
    ensures Confirm(f, Some(stream), streams, fault).outcome.row.streamAmount.None?
  {
  }
}
