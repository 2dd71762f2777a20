/** End-to-end requests through the router, with the optimizer left arbitrary. */
module Scenarios {
  import opened Wrappers
  import opened Http
  import opened Form
  import Png
  import Upload
  import Preflight
  import Mode
  import Router

  /** A buffer holding only the PNG signature, with no `mode` entry: preset 6 is used and its output returned. */
  lemma SignatureOnlyNoMode(headers: Preflight.Headers, engine: Upload.Engine, optimized: seq<byte>)
    requires engine(Png.Signature, Upload.FromPreset(6)) == Ok(optimized)
    ensures Router.Serve(Router.Request(Post, "/form", Parsed(map["image" := File(Read(Png.Signature))]), headers), engine)
         == Router.Handled(Respond(Response(200, Bytes(optimized), None)))
  {
  }

  /** An `image` entry that is the text "hello" is answered 400 "Invalid file". */
  lemma ImageAsText(headers: Preflight.Headers, engine: Upload.Engine)
    ensures Router.Serve(Router.Request(Post, "/form", Parsed(map["image" := Field("hello")]), headers), engine)
         == Router.Handled(Respond(Response(400, Text("Invalid file"), None)))
  {
  }

  /** Mode "3" reaches the optimizer as preset 3, and its failure text becomes a 500. */
  lemma ModeThreeOptimizerFails(bytes: seq<byte>, headers: Preflight.Headers, engine: Upload.Engine)
    requires Png.HasSignature(bytes)
    requires engine(bytes, Upload.FromPreset(3)) == Err("corrupt chunk")
    ensures Router.Serve(Router.Request(Post, "/form", Parsed(map["image" := File(Read(bytes)), "mode" := Field("3")]), headers), engine)
         == Router.Handled(Respond(Response(500, Text("corrupt chunk"), None)))
  {
    var entries := map["image" := File(Read(bytes)), "mode" := Field("3")];
    assert Lookup(entries, "mode") == Some(Field("3"));
    assert "3" == Mode.DigitText(3);
    Mode.FieldSelectsItsDigit(3);
    Upload.EngineResultReturned(entries, bytes, engine);
  }

  /** A body that is not form data is answered 400 "There was no Form-Data". */
  lemma NoFormData(headers: Preflight.Headers, engine: Upload.Engine)
    ensures Router.Serve(Router.Request(Post, "/form", ParseError, headers), engine)
         == Router.Handled(Respond(Response(400, Text("There was no Form-Data"), None)))
  {
  }

  /** `GET /form` is not a route: the router's default answers it. */
  lemma WrongMethodNotRouted(form: FormParse, headers: Preflight.Headers, engine: Upload.Engine)
    ensures Router.Serve(Router.Request(Get, "/form", form, headers), engine) == Router.RouterDefault
  {
  }

  /**
   An empty `image` file panics the program as written; the guarded entry
   point answers it with 400 "Invalid PNG header detected" instead.
   */
  lemma EmptyImageEndToEnd(headers: Preflight.Headers, engine: Upload.Engine)
    ensures Router.Serve(Router.Request(Post, "/form", Parsed(map["image" := File(Read([]))]), headers), engine)
         == Router.Handled(Panic)
    ensures Router.ServeGuarded(Router.Request(Post, "/form", Parsed(map["image" := File(Read([]))]), headers), engine)
         == Router.Handled(Respond(Response(400, Text("Invalid PNG header detected"), None)))
  {
  }
}
