/** The fixed-priority if/elif chain that turns a label index into one of
    six reply intents, over the five vocabulary lists of `ai.py`. */
module Intent {
  import opened Errors
  import opened Strings
  import opened Dependency

  /** The word lists the chain tests lower-cased token texts against. */
  datatype Vocabulary = Vocabulary(
    greetings: seq<string>,
    questions: seq<string>,
    targetsSelf: seq<string>,
    actions: seq<string>,
    objects: seq<string>)

  datatype Intent =
    | Greeting         // ROOT is a greeting word
    | SelfState        // "how are you"
    | Action           // "how you doing"
    | Coffee           // "do you want a coffee"
    | UnknownQuestion  // a question none of the above
    | Welcome          // ROOT is neither a greeting nor a question word

  /** `role in label_dict and label_dict[role].text.lower() in words`. */
  predicate Mentions(index: map<string, Token>, role: string, words: seq<string>) {
    role in index && Lower(index[role].text) in words
  }

  /** The lower-cased text of the ROOT token. */
  function RootWord(index: map<string, Token>): string
    requires ROOT in index
  {
    Lower(index[ROOT].text)
  }

  /** The chain reaches the self-state test, with STATE present and TARGET
      absent, so `label_dict["TARGET"]` raises. */
  predicate TargetLookupFails(vocab: Vocabulary, index: map<string, Token>) {
    ROOT in index && RootWord(index) !in vocab.greetings && RootWord(index) in vocab.questions
    && STATE in index && TARGET !in index
  }

  /** The classification chain.  A missing ROOT is a `KeyError`, and so is a
      STATE without a TARGET under a question word, because the self-state
      test reads `label_dict["TARGET"]` once STATE is present. */
  function Classify(vocab: Vocabulary, index: map<string, Token>): Result<Intent> {
    if ROOT !in index then Err(KeyError(ROOT))
    else
      var root := Lower(index[ROOT].text);
      if root in vocab.greetings then Ok(Greeting)
      else if root in vocab.questions then
        if STATE in index && TARGET !in index then Err(KeyError(TARGET))
        else if STATE in index && Lower(index[TARGET].text) in vocab.targetsSelf then Ok(SelfState)
        else if Mentions(index, TARGET, vocab.actions) then Ok(Action)
        else if Mentions(index, OBJECT, vocab.objects) then Ok(Coffee)
        else Ok(UnknownQuestion)
      else Ok(Welcome)
  }


  /** Classification fails exactly on the two lookups that can miss: ROOT,
      and TARGET behind a present STATE. */
  lemma ClassifyFailures(vocab: Vocabulary, index: map<string, Token>)
    ensures Classify(vocab, index).Ok? <==> ROOT in index && !TargetLookupFails(vocab, index)
    ensures Classify(vocab, index).Err? ==>
      Classify(vocab, index).error == KeyError(ROOT) || Classify(vocab, index).error == KeyError(TARGET)
  {
  }

  /** Without a ROOT entry classification fails on the first lookup. */
  lemma MissingRootFails(vocab: Vocabulary, index: map<string, Token>)
    ensures Classify(vocab, index) == Err(KeyError(ROOT)) <==> ROOT !in index
  {
  }

  /** STATE present, TARGET absent under a question word: a `KeyError` on
      TARGET, not a fall-through to the action or coffee tests. */
  lemma StateWithoutTargetFails(vocab: Vocabulary, index: map<string, Token>)
    requires ROOT in index && RootWord(index) !in vocab.greetings && RootWord(index) in vocab.questions
    ensures Classify(vocab, index) == Err(KeyError(TARGET)) <==> STATE in index && TARGET !in index
  {
  }

  /** A greeting ROOT is answered as a greeting whatever else is labelled. */
  lemma GreetingFirst(vocab: Vocabulary, index: map<string, Token>)
    requires ROOT in index
    ensures Classify(vocab, index) == Ok(Greeting) <==> RootWord(index) in vocab.greetings
  {
  }

  /** Self-state wins over action and coffee whenever its own test holds. */
  lemma SelfStateWins(vocab: Vocabulary, index: map<string, Token>)
    requires ROOT in index && RootWord(index) !in vocab.greetings && RootWord(index) in vocab.questions
    ensures Classify(vocab, index) == Ok(SelfState) <==> STATE in index && Mentions(index, TARGET, vocab.targetsSelf)
  {
  }

  /** The action reply needs an action-word TARGET, and is reached only if
      the self-state test did not hold. */
  lemma ActionCondition(vocab: Vocabulary, index: map<string, Token>)
    requires ROOT in index && RootWord(index) !in vocab.greetings && RootWord(index) in vocab.questions
    ensures Classify(vocab, index) == Ok(Action) <==>
      !(STATE in index && TARGET !in index)
      && !(STATE in index && Mentions(index, TARGET, vocab.targetsSelf))
      && Mentions(index, TARGET, vocab.actions)
  {
  }

  /** The coffee reply needs an object-word OBJECT, and is reached only if
      no earlier test held. */
  lemma CoffeeCondition(vocab: Vocabulary, index: map<string, Token>)
    requires ROOT in index && RootWord(index) !in vocab.greetings && RootWord(index) in vocab.questions
    ensures Classify(vocab, index) == Ok(Coffee) <==>
      !(STATE in index && TARGET !in index)
      && !(STATE in index && Mentions(index, TARGET, vocab.targetsSelf))
      && !Mentions(index, TARGET, vocab.actions)
      && Mentions(index, OBJECT, vocab.objects)
  {
  }

  /** A question that meets none of the three tests is an unknown question. */
  lemma UnknownQuestionCondition(vocab: Vocabulary, index: map<string, Token>)
    requires ROOT in index && RootWord(index) !in vocab.greetings && RootWord(index) in vocab.questions
    ensures Classify(vocab, index) == Ok(UnknownQuestion) <==>
      !(STATE in index && TARGET !in index)
      && !(STATE in index && Mentions(index, TARGET, vocab.targetsSelf))
      && !Mentions(index, TARGET, vocab.actions)
      && !Mentions(index, OBJECT, vocab.objects)
  {
  }

  /** A ROOT that is neither greeting nor question word gets the welcome
      reply, and the other entries of the index play no part. */
  lemma WelcomeFallback(vocab: Vocabulary, index: map<string, Token>, other: map<string, Token>)
    requires ROOT in index && RootWord(index) !in vocab.greetings && RootWord(index) !in vocab.questions
    requires ROOT in other && other[ROOT] == index[ROOT]
    ensures Classify(vocab, index) == Ok(Welcome) == Classify(vocab, other)
  {
  }

  /** Only the ROOT word decides between greeting, question and welcome:
      the greeting verdict ignores every other entry. */
  lemma GreetingIgnoresOtherLabels(vocab: Vocabulary, index: map<string, Token>, other: map<string, Token>)
    requires ROOT in index && RootWord(index) in vocab.greetings
    requires ROOT in other && other[ROOT] == index[ROOT]
    ensures Classify(vocab, index) == Ok(Greeting) == Classify(vocab, other)
  {
  }

  /** Lower-casing makes the chain blind to the case of the token texts. */
  lemma CaseInsensitive(vocab: Vocabulary, index: map<string, Token>, other: map<string, Token>)
    requires index.Keys == other.Keys
    requires forall l :: l in index ==> Lower(index[l].text) == Lower(other[l].text)
    ensures Classify(vocab, index) == Classify(vocab, other)
  {
  }
}
