/**
 The `POST /form` handler: parse the form, find the `image` file part, read it,
 resolve the optimization mode, check the PNG signature, then run the
 optimizer. Each check short-circuits the ones after it.

 The handler is split into a pure decision (`Plan`, which never sees the
 optimizer) and `Finish`, which runs the optimizer only on the buffer and
 options an `Optimize` step carries.
 */
module Upload {
  import opened Wrappers
  import opened Form
  import opened Http
  import Png
  import Mode

  /** oxipng's `Options`, opaque: all that is visible is the preset level it was built from. */
  datatype Options = FromPreset(level: nat)

  /** oxipng's `optimize_from_memory`: optimized bytes, or the error's text. */
  type Engine = (seq<byte>, Options) -> Result<seq<byte>, string>

  const NoFormData := "There was no Form-Data"
  const NoImageKey := "There was no 'image' key in Form-Data"
  const InvalidFile := "Invalid file"
  const InvalidHeader := "Invalid PNG header detected"

  /** What the handler decides before the optimizer is involved. */
  datatype Step =
    | Reject(message: string)                          // a 400 with this message
    | Propagate(error: string)                         // `?` on the file read
    | Abort                                            // the unguarded `bytes[0..8]` panics
    | Optimize(bytes: seq<byte>, options: Options) // hand these to the optimizer

  /** The first steps, shared by both plans: form, `image` entry, mode, file read. */
  datatype Intake = Stop(step: Step) | Loaded(bytes: seq<byte>, options: Options)

  /** The `image` entry of the form, if the form parsed and has one. */
  function Image(form: FormParse): Option<FormEntry>
  {
    match form
    case Parsed(entries) => Lookup(entries, "image")
    case ParseError => None
  }

  /** The options the handler builds for a parsed form (`Options::from_preset(mode)`). */
  function OptionsFor(entries: map<string, FormEntry>): (o: Options)
    ensures 1 <= o.level <= 6
  {
    FromPreset(Mode.ResolveForm(entries))
  }

  function TakeIn(form: FormParse): (t: Intake)
    ensures t.Stop? ==> !t.step.Optimize? && !t.step.Abort?
    ensures t.Loaded? <==> exists b :: Image(form) == Some(File(Read(b)))
    ensures t.Loaded? ==> Image(form) == Some(File(Read(t.bytes))) && t.options == OptionsFor(form.entries)
  {
    match form
    case ParseError => Stop(Reject(NoFormData))
    case Parsed(entries) =>
      match Lookup(entries, "image")
      case None => Stop(Reject(NoImageKey))
      case Some(Field(_)) => Stop(Reject(InvalidFile))
      case Some(File(contents)) =>
        var options := OptionsFor(entries);
        match contents
        case ReadError(e) => Stop(Propagate(e))
        case Read(bytes) => Loaded(bytes, options)
  }

  /**
   The handler's decision as the source writes it: a buffer shorter than 8
   bytes reaches the unguarded slice and panics.
   */
  function PlanAsWritten(form: FormParse): (s: Step)
    ensures s.Optimize? ==> Png.HasSignature(s.bytes)
    ensures s.Optimize? ==> Image(form) == Some(File(Read(s.bytes))) && s.options == OptionsFor(form.entries)
    ensures s.Abort? <==> exists b :: Image(form) == Some(File(Read(b))) && |b| < 8
  {
    match TakeIn(form)
    case Stop(step) => step
    case Loaded(bytes, options) =>
      if |bytes| < 8 then Abort
      else if Png.HeaderMismatch(bytes) then Reject(InvalidHeader)
      else
        Png.MismatchIffNoSignature(bytes);
        Optimize(bytes, options)
  }

  /**
   The handler's decision with the signature check guarded by the length, so
   that a short buffer is rejected like any other non-PNG buffer.
   */
  function Plan(form: FormParse): (s: Step)
    ensures !s.Abort?
    ensures s.Optimize? ==> Png.HasSignature(s.bytes)
    ensures s.Optimize? ==> Image(form) == Some(File(Read(s.bytes))) && s.options == OptionsFor(form.entries)
  {
    match TakeIn(form)
    case Stop(step) => step
    case Loaded(bytes, options) =>
      if |bytes| < 8 || Png.HeaderMismatch(bytes) then Reject(InvalidHeader)
      else
        Png.MismatchIffNoSignature(bytes);
        Optimize(bytes, options)
  }

  /** Turn a decision into the handler's outcome, running the optimizer for `Optimize` only. */
  function Finish(step: Step, engine: Engine): Outcome
  {
    match step
    case Reject(message) => Respond(Error(message, 400))
    case Propagate(error) => Fail(error)
    case Abort => Panic
    case Optimize(bytes, options) =>
      match engine(bytes, options)
      case Ok(optimized) => Respond(FromBytes(optimized))
      case Err(e) => Respond(Error(e, 500))
  }

  /** The handler as written. */
  function HandleAsWritten(form: FormParse, engine: Engine): Outcome
  {
    Finish(PlanAsWritten(form), engine)
  }

  /** The handler with the short-buffer guard; `Router.ServeGuarded` uses this one. */
  function Handle(form: FormParse, engine: Engine): Outcome
  {
    Finish(Plan(form), engine)
  }

  // ---------------------------------------------------------------------------
  // Properties of the handler as written.

  /** A form that does not parse is answered 400 "There was no Form-Data", whatever the optimizer does. */
  lemma ParseFailureFirst(engine: Engine)
    ensures HandleAsWritten(ParseError, engine) == Respond(Response(400, Text("There was no Form-Data"), None))
  {
  }

  /** A parsed form without an `image` key is answered 400, whatever its other entries. */
  lemma MissingImageRejected(entries: map<string, FormEntry>, engine: Engine)
    requires "image" !in entries
    ensures HandleAsWritten(Parsed(entries), engine)
         == Respond(Response(400, Text("There was no 'image' key in Form-Data"), None))
  {
  }

  /** An `image` text field is answered 400 "Invalid file", whatever the mode or the optimizer. */
  lemma ImageFieldRejected(entries: map<string, FormEntry>, engine: Engine)
    requires "image" in entries && entries["image"].Field?
    ensures HandleAsWritten(Parsed(entries), engine) == Respond(Response(400, Text("Invalid file"), None))
  {
  }

  /**
   A failed file read is the handler's error, before the signature check and
   without the optimizer being run.
   */
  lemma ReadFailurePropagated(entries: map<string, FormEntry>, message: string, engine: Engine)
    requires Lookup(entries, "image") == Some(File(ReadError(message)))
    ensures PlanAsWritten(Parsed(entries)) == Propagate(message)
    ensures HandleAsWritten(Parsed(entries), engine) == Fail(message)
  {
  }

  /**
   For a read file of 8 bytes or more, the answer is 400 "Invalid PNG header
   detected" exactly when the buffer does not start with the PNG signature.
   */
  lemma SignatureDecides(entries: map<string, FormEntry>, bytes: seq<byte>, engine: Engine)
    requires Lookup(entries, "image") == Some(File(Read(bytes)))
    requires |bytes| >= 8
    ensures HandleAsWritten(Parsed(entries), engine) == Respond(Response(400, Text("Invalid PNG header detected"), None))
        <==> !Png.HasSignature(bytes)
  {
  }

  /** A read file shorter than 8 bytes makes the handler as written panic. */
  lemma ShortBufferPanics(entries: map<string, FormEntry>, bytes: seq<byte>, engine: Engine)
    requires Lookup(entries, "image") == Some(File(Read(bytes)))
    requires |bytes| < 8
    ensures HandleAsWritten(Parsed(entries), engine) == Panic
  {
  }

  /** The smallest such input: an empty `image` file. */
  lemma EmptyImagePanics(engine: Engine)
    ensures HandleAsWritten(Parsed(map["image" := File(Read([]))]), engine) == Panic
  {
  }

  /**
   A signed buffer goes to the optimizer with the options of the resolved
   mode: its output is the body of a 200 response, its error the text of a 500.
   */
  lemma EngineResultReturned(entries: map<string, FormEntry>, bytes: seq<byte>, engine: Engine)
    requires Lookup(entries, "image") == Some(File(Read(bytes)))
    requires Png.HasSignature(bytes)
    ensures var o := HandleAsWritten(Parsed(entries), engine);
            match engine(bytes, FromPreset(Mode.ResolveForm(entries)))
            case Ok(optimized) => o == Respond(Response(200, Bytes(optimized), None))
            case Err(e) => o == Respond(Response(500, Text(e), None))
  {
  }

  /**
   The optimizer only ever sees buffers that passed the signature check, with
   the options of the resolved mode: two optimizers that agree there give the
   same outcome on every form.
   */
  lemma OptimizerSeesOnlySignedBuffers(entries: map<string, FormEntry>, e1: Engine, e2: Engine)
    requires forall b :: Png.HasSignature(b) ==> e1(b, OptionsFor(entries)) == e2(b, OptionsFor(entries))
    ensures HandleAsWritten(Parsed(entries), e1) == HandleAsWritten(Parsed(entries), e2)
  {
  }

  /**
   Every response of either handler is a 200 carrying bytes, or a 400 or 500
   carrying text, and none carries CORS headers.
   */
  lemma ResponseShapes(form: FormParse, engine: Engine)
    ensures forall o | o == HandleAsWritten(form, engine) || o == Handle(form, engine) ::
              o.Respond? ==>
                && o.response.cors.None?
                && (o.response.status == 200 <==> o.response.body.Bytes?)
                && (o.response.status != 200 ==> o.response.status in {400, 500} && o.response.body.Text?)
  {
  }

  /** A 500 comes from the optimizer alone: only a signed buffer the optimizer failed on gets one. */
  lemma ServerErrorOnlyFromOptimizer(form: FormParse, engine: Engine)
    ensures var o := HandleAsWritten(form, engine);
            o.Respond? && o.response.status == 500 <==>
              var s := PlanAsWritten(form); s.Optimize? && engine(s.bytes, s.options).Err?
  {
  }

  // ---------------------------------------------------------------------------
  // The guarded handler against the handler as written.

  /** Wherever the handler as written does not panic, the guarded handler answers the same. */
  lemma GuardAgreesWhereDefined(form: FormParse, engine: Engine)
    requires !PlanAsWritten(form).Abort?
    ensures Handle(form, engine) == HandleAsWritten(form, engine)
  {
  }

  /**
   The guarded handler rejects every read buffer without the PNG signature,
   short ones included, with 400 "Invalid PNG header detected", and never panics.
   */
  lemma GuardRejectsEveryUnsignedBuffer(entries: map<string, FormEntry>, bytes: seq<byte>, engine: Engine)
    requires Lookup(entries, "image") == Some(File(Read(bytes)))
    ensures Handle(Parsed(entries), engine) != Panic
    ensures Handle(Parsed(entries), engine) == Respond(Response(400, Text("Invalid PNG header detected"), None))
        <==> !Png.HasSignature(bytes)
  {
  }
}
