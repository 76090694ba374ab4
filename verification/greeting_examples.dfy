/**
 * Worked examples of the greeting handlers: an absent name is greeted as
 * `Anonymous`, a given name as itself.
 */
module GreetingExamples {
  import opened Wrappers
  import opened Contracts
  import opened Greetings

  lemma AnonymousPublicExample()
    ensures PublicGreeting(GreetingInput(None)).text == "Hello, Anonymous from public greeting procedure!"
  {
    HandlerTexts(GreetingInput(None));
    AnonymousPublicText();
  }

  lemma AnonymousPrivateExample()
    ensures PrivateGreeting(GreetingInput(None)).text == "Hello, Anonymous from private greeting procedure!"
  {
    HandlerTexts(GreetingInput(None));
    AnonymousPrivateText();
  }

  lemma NamedPublicExample()
    ensures PublicGreeting(GreetingInput(Some("Ada"))).text == "Hello, Ada from public greeting procedure!"
  {
    HandlerTexts(GreetingInput(Some("Ada")));
    NamedPublicText();
  }

  lemma AnonymousPublicText()
    ensures "Hello, " + "Anonymous" + " from public greeting procedure!"
         == "Hello, Anonymous from public greeting procedure!"
  {
  }

  lemma AnonymousPrivateText()
    ensures "Hello, " + "Anonymous" + " from private greeting procedure!"
         == "Hello, Anonymous from private greeting procedure!"
  {
  }

  lemma NamedPublicText()
    ensures "Hello, " + "Ada" + " from public greeting procedure!"
         == "Hello, Ada from public greeting procedure!"
  {
  }
}
