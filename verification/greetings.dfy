/**
 * The two greeting handlers, `publicRouter.greeting` and
 * `privateRouter.greeting`, and a parser that reads a greeting back into
 * its scope word and name: the inverse the handlers' contracts are stated
 * against.
 */
module Greetings {
  import opened Wrappers
  import opened Contracts
  import opened Orpc

  /** The name used when the input carries none (`input.name ?? 'Anonymous'`). */
  const DefaultName := "Anonymous"

  const Opening := "Hello, "
  const PublicTail := " from public greeting procedure!"
  const PrivateTail := " from private greeting procedure!"

  /** What a greeting says: which procedure produced it, and whom it greets. */
  datatype Greeted = Greeted(scope: string, name: string)

  predicate HasPrefix(s: string, p: string) {
    |p| <= |s| && s[..|p|] == p
  }

  predicate HasSuffix(s: string, t: string) {
    |t| <= |s| && s[|s| - |t|..] == t
  }

  /** Reads a greeting text back; `None` for any text no handler produces. */
  function ParseGreeting(text: string): Option<Greeted> {
    if !HasPrefix(text, Opening) then None
    else
      var rest := text[|Opening|..];
      if HasSuffix(rest, PublicTail) then
        Some(Greeted("public", rest[..|rest| - |PublicTail|]))
      else if HasSuffix(rest, PrivateTail) then
        Some(Greeted("private", rest[..|rest| - |PrivateTail|]))
      else
        None
  }

  lemma {:induction false} ParsePublic(name: string)
    ensures ParseGreeting(Opening + name + PublicTail) == Some(Greeted("public", name))
  {
    var text := Opening + name + PublicTail;
    assert text[..|Opening|] == Opening;
    var rest := text[|Opening|..];
    assert rest == name + PublicTail;
    assert rest[|rest| - |PublicTail|..] == PublicTail;
    assert rest[..|rest| - |PublicTail|] == name;
  }

  lemma {:induction false} ParsePrivate(name: string)
    ensures ParseGreeting(Opening + name + PrivateTail) == Some(Greeted("private", name))
  {
    var text := Opening + name + PrivateTail;
    assert text[..|Opening|] == Opening;
    var rest := text[|Opening|..];
    assert rest == name + PrivateTail;
    assert rest[|rest| - |PublicTail|..] == PrivateTail[1..];
    assert PrivateTail[1] != PublicTail[0];
    assert !HasSuffix(rest, PublicTail);
    assert rest[|rest| - |PrivateTail|..] == PrivateTail;
    assert rest[..|rest| - |PrivateTail|] == name;
  }

  /**
   * `publicRouter.greeting`'s handler. The text names the public procedure
   * and greets `input.name`, or `Anonymous` only when the name is absent
   * (an empty name is kept); the output passes the output shape.
   */
  function PublicGreeting(input: GreetingInput): (out: GreetingOutput)
    ensures ParseGreeting(out.text) == Some(Greeted("public", input.name.GetOr(DefaultName)))
    ensures Schema.Accepts(GreetingOutputSchema, EncodeOutput(out))
  {
    var message := "Hello, " + input.name.GetOr("Anonymous") + " from public greeting procedure!";
    ParsePublic(input.name.GetOr(DefaultName));
    GreetingOutput(message)
  }

  /**
   * `privateRouter.greeting`'s handler: as the public one, naming the
   * private procedure.
   */
  function PrivateGreeting(input: GreetingInput): (out: GreetingOutput)
    ensures ParseGreeting(out.text) == Some(Greeted("private", input.name.GetOr(DefaultName)))
    ensures Schema.Accepts(GreetingOutputSchema, EncodeOutput(out))
  {
    var message := "Hello, " + input.name.GetOr("Anonymous") + " from private greeting procedure!";
    ParsePrivate(input.name.GetOr(DefaultName));
    GreetingOutput(message)
  }

  /** The handlers bound in this repository. */
  datatype Handler = PublicGreetingHandler | PrivateGreetingHandler

  /**
   * Invokes a handler with the context the middlewares produced; neither
   * handler reads it.
   */
  function RunHandler(h: Handler, ctx: Context, input: GreetingInput): GreetingOutput {
    match h
    case PublicGreetingHandler => PublicGreeting(input)
    case PrivateGreetingHandler => PrivateGreeting(input)
  }

  /** A handler's output depends on `input.name` alone, never on the context or session. */
  lemma HandlerReadsOnlyName(h: Handler, c1: Context, c2: Context, i1: GreetingInput, i2: GreetingInput)
    requires i1.name == i2.name
    ensures RunHandler(h, c1, i1) == RunHandler(h, c2, i2)
  {
  }

  /**
   * For the same input the two texts differ only in the word naming the
   * procedure.
   */
  lemma {:induction false} GreetingsDifferOnlyInScope(input: GreetingInput)
    ensures var before := Opening + input.name.GetOr(DefaultName) + " from ";
            var after := " greeting procedure!";
            && PublicGreeting(input).text == before + "public" + after
            && PrivateGreeting(input).text == before + "private" + after
  {
    var n := input.name.GetOr(DefaultName);
    TailSplits(n);
    assert PublicGreeting(input).text == "Hello, " + n + " from public greeting procedure!";
    assert PrivateGreeting(input).text == "Hello, " + n + " from private greeting procedure!";
  }

  lemma TailSplits(n: string)
    ensures "Hello, " + n + " from public greeting procedure!"
         == Opening + n + " from " + "public" + " greeting procedure!"
    ensures "Hello, " + n + " from private greeting procedure!"
         == Opening + n + " from " + "private" + " greeting procedure!"
  {
    assert " from public greeting procedure!" == " from " + "public" + " greeting procedure!";
    assert " from private greeting procedure!" == " from " + "private" + " greeting procedure!";
  }

  /** The texts the handlers build, for any name they greet. */
  lemma HandlerTexts(input: GreetingInput)
    ensures PublicGreeting(input).text == "Hello, " + input.name.GetOr(DefaultName) + " from public greeting procedure!"
    ensures PrivateGreeting(input).text == "Hello, " + input.name.GetOr(DefaultName) + " from private greeting procedure!"
  {
  }
}
