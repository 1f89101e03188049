/** The training side: the annotated corpus that teaches the parser the
    custom labels, the loop that registers those labels with the parser,
    and `test_model`, which answers a batch of parsed docs with its own
    copy of the word lists and pools. */
module Train {
  import opened Errors
  import opened Strings
  import opened Dependency
  import opened Intent
  import opened Response
  import Ai

  /** One training entry: the tokens of its text, and per token the index
      of its head token and its dependency label ("-" for no relation). */
  datatype Example = Example(words: seq<string>, heads: seq<int>, deps: seq<string>)

  const HI_THERE := Example(["hi", "there"], [0, 0], ["ROOT", "-"])
  const HEY_YOU := Example(["hey", "you"], [0, 0], ["ROOT", "TARGET"])
  const HELLO_BOT := Example(["hello", "bot"], [0, 0], ["ROOT", "TARGET"])
  const GOOD_MORNING := Example(["good", "morning"], [1, 1], ["QUALITY", "ROOT"])
  const HI := Example(["hi"], [0], ["ROOT"])
  const HOW_ARE_YOU := Example(["how", "are", "you"], [0, 2, 0], ["ROOT", "STATE", "TARGET"])
  const HOW_ARE_YOU_FEELING := Example(["how", "are", "you", "feeling"], [0, 2, 0, 2], ["ROOT", "STATE", "TARGET", "STATE"])
  const HOW_ARE_YOU_DOING := Example(["how", "are", "you", "doing"], [0, 2, 0, 2], ["ROOT", "STATE", "TARGET", "STATE"])
  const HOW_YOU_DOING := Example(["how", "you", "doing"], [0, 2, 0], ["ROOT", "STATE", "TARGET"])
  const WHAT_ARE_YOU_DOING := Example(["What", "are", "you", "doing"], [0, 2, 0, 2], ["ROOT", "STATE", "TARGET", "STATE"])
  const ANYTHING_NEW := Example(["anything", "new", "going", "on"], [0, 0, 0, 2], ["ROOT", "STATE", "STATE", "-"])
  const WANT_COFFEE := Example(["do", "you", "want", "a", "coffee"], [1, 2, 2, 4, 2], ["-", "TARGET", "ROOT", "-", "OBJECT"])

  const TRAIN_DATA := [
    HI_THERE, HEY_YOU, HELLO_BOT, GOOD_MORNING, HI, HOW_ARE_YOU, HOW_ARE_YOU_FEELING,
    HOW_ARE_YOU_DOING, HOW_YOU_DOING, WHAT_ARE_YOU_DOING, ANYTHING_NEW, WANT_COFFEE]

  // ---------------------------------------------------------------------
  // Corpus validation

  /** The text of a training entry: its tokens joined by single spaces. */
  function Text(ex: Example): string {
    Join(ex.words, " ")
  }

  /** How many times `dep` occurs in `deps`. */
  function Count(deps: seq<string>, dep: string): (n: nat)
    ensures n <= |deps|
    ensures n == 0 <==> dep !in deps
  {
    if |deps| == 0 then 0
    else (if deps[0] == dep then 1 else 0) + Count(deps[1..], dep)
  }

  /** One head and one label per token. */
  predicate Aligned(ex: Example) {
    |ex.heads| == |ex.deps| == |ex.words|
  }

  /** At least one token, and no token holds a space. */
  predicate Tokenized(ex: Example) {
    |ex.words| >= 1 && forall k :: 0 <= k < |ex.words| ==> ' ' !in ex.words[k]
  }

  /** Every head is the index of a token of the same example. */
  predicate HeadsInRange(ex: Example) {
    forall k :: 0 <= k < |ex.heads| ==> 0 <= ex.heads[k] < |ex.heads|
  }

  /** Exactly one ROOT, and it is its own head. */
  predicate SingleSelfHeadedRoot(ex: Example)
    requires |ex.heads| == |ex.deps|
  {
    Count(ex.deps, ROOT) == 1
    && forall k :: 0 <= k < |ex.deps| && ex.deps[k] == ROOT ==> ex.heads[k] == k
  }

  /** The validator for one training entry. */
  predicate WellFormed(ex: Example) {
    Tokenized(ex) && Aligned(ex) && HeadsInRange(ex) && SingleSelfHeadedRoot(ex)
  }

  /** Splitting the text of a tokenized entry at its spaces gives back its
      tokens, so the numbering of heads refers to the words of the text. */
  lemma TextSplitsIntoWords(ex: Example)
    requires Tokenized(ex)
    ensures Split(Text(ex), ' ') == ex.words
  {
    SplitJoin(ex.words, ' ');
  }

  /** Position `r` holds the single ROOT of the example. */
  lemma {:induction false} RootAt(deps: seq<string>, r: nat)
    requires r < |deps| && deps[r] == ROOT
    requires forall k :: 0 <= k < |deps| && k != r ==> deps[k] != ROOT
    ensures Count(deps, ROOT) == 1
  {
    if r == 0 {
      assert ROOT !in deps[1..] by {
        forall k | 0 <= k < |deps[1..]| ensures deps[1..][k] != ROOT {
          assert deps[1..][k] == deps[k + 1];
        }
      }
    } else {
      RootAt(deps[1..], r - 1);
    }
  }

  /** An entry whose ROOT sits at `root`, heading itself, and nowhere else
      passes the validator. */
  lemma Validates(ex: Example, root: nat)
    requires Tokenized(ex) && Aligned(ex) && HeadsInRange(ex)
    requires root < |ex.deps| && ex.deps[root] == ROOT && ex.heads[root] == root
    requires forall k :: 0 <= k < |ex.deps| && k != root ==> ex.deps[k] != ROOT
    ensures WellFormed(ex)
  {
    RootAt(ex.deps, root);
  }

  // The parse a perfect parser would give each entry: its words with the
  // annotated labels and heads.
  const HI_THERE_GOLD: Doc := [Token("hi", "ROOT", 0), Token("there", "-", 0)]
  const HEY_YOU_GOLD: Doc := [Token("hey", "ROOT", 0), Token("you", "TARGET", 0)]
  const HELLO_BOT_GOLD: Doc := [Token("hello", "ROOT", 0), Token("bot", "TARGET", 0)]
  const GOOD_MORNING_GOLD: Doc := [Token("good", "QUALITY", 1), Token("morning", "ROOT", 1)]
  const HI_GOLD: Doc := [Token("hi", "ROOT", 0)]
  const HOW_ARE_YOU_GOLD: Doc := [Token("how", "ROOT", 0), Token("are", "STATE", 2), Token("you", "TARGET", 0)]
  const HOW_ARE_YOU_FEELING_GOLD: Doc := [Token("how", "ROOT", 0), Token("are", "STATE", 2), Token("you", "TARGET", 0), Token("feeling", "STATE", 2)]
  const HOW_ARE_YOU_DOING_GOLD: Doc := [Token("how", "ROOT", 0), Token("are", "STATE", 2), Token("you", "TARGET", 0), Token("doing", "STATE", 2)]
  const HOW_YOU_DOING_GOLD: Doc := [Token("how", "ROOT", 0), Token("you", "STATE", 2), Token("doing", "TARGET", 0)]
  const WHAT_ARE_YOU_DOING_GOLD: Doc := [Token("What", "ROOT", 0), Token("are", "STATE", 2), Token("you", "TARGET", 0), Token("doing", "STATE", 2)]
  const ANYTHING_NEW_GOLD: Doc := [Token("anything", "ROOT", 0), Token("new", "STATE", 0), Token("going", "STATE", 0), Token("on", "-", 2)]
  const WANT_COFFEE_GOLD: Doc := [Token("do", "-", 1), Token("you", "TARGET", 2), Token("want", "ROOT", 2), Token("a", "-", 4), Token("coffee", "OBJECT", 2)]

  lemma HiThereGold()
    ensures TRAIN_DATA[0] == HI_THERE && WellFormed(TRAIN_DATA[0])
    ensures WellFormed(HI_THERE) && GoldDoc(HI_THERE) == HI_THERE_GOLD
  {
    Validates(HI_THERE, 0);
  }

  lemma HeyYouGold()
    ensures TRAIN_DATA[1] == HEY_YOU && WellFormed(TRAIN_DATA[1])
    ensures WellFormed(HEY_YOU) && GoldDoc(HEY_YOU) == HEY_YOU_GOLD
  {
    Validates(HEY_YOU, 0);
  }

  lemma HelloBotGold()
    ensures TRAIN_DATA[2] == HELLO_BOT && WellFormed(TRAIN_DATA[2])
    ensures WellFormed(HELLO_BOT) && GoldDoc(HELLO_BOT) == HELLO_BOT_GOLD
  {
    Validates(HELLO_BOT, 0);
  }

  lemma GoodMorningGold()
    ensures TRAIN_DATA[3] == GOOD_MORNING && WellFormed(TRAIN_DATA[3])
    ensures WellFormed(GOOD_MORNING) && GoldDoc(GOOD_MORNING) == GOOD_MORNING_GOLD
  {
    Validates(GOOD_MORNING, 1);
  }

  lemma HiGold()
    ensures TRAIN_DATA[4] == HI && WellFormed(TRAIN_DATA[4])
    ensures WellFormed(HI) && GoldDoc(HI) == HI_GOLD
  {
    Validates(HI, 0);
  }

  lemma HowAreYouGold()
    ensures TRAIN_DATA[5] == HOW_ARE_YOU && WellFormed(TRAIN_DATA[5])
    ensures WellFormed(HOW_ARE_YOU) && GoldDoc(HOW_ARE_YOU) == HOW_ARE_YOU_GOLD
  {
    Validates(HOW_ARE_YOU, 0);
  }

  lemma HowAreYouFeelingGold()
    ensures TRAIN_DATA[6] == HOW_ARE_YOU_FEELING && WellFormed(TRAIN_DATA[6])
    ensures WellFormed(HOW_ARE_YOU_FEELING) && GoldDoc(HOW_ARE_YOU_FEELING) == HOW_ARE_YOU_FEELING_GOLD
  {
    Validates(HOW_ARE_YOU_FEELING, 0);
  }

  lemma HowAreYouDoingGold()
    ensures TRAIN_DATA[7] == HOW_ARE_YOU_DOING && WellFormed(TRAIN_DATA[7])
    ensures WellFormed(HOW_ARE_YOU_DOING) && GoldDoc(HOW_ARE_YOU_DOING) == HOW_ARE_YOU_DOING_GOLD
  {
    Validates(HOW_ARE_YOU_DOING, 0);
  }

  lemma HowYouDoingGold()
    ensures TRAIN_DATA[8] == HOW_YOU_DOING && WellFormed(TRAIN_DATA[8])
    ensures WellFormed(HOW_YOU_DOING) && GoldDoc(HOW_YOU_DOING) == HOW_YOU_DOING_GOLD
  {
    Validates(HOW_YOU_DOING, 0);
  }

  lemma WhatAreYouDoingGold()
    ensures TRAIN_DATA[9] == WHAT_ARE_YOU_DOING && WellFormed(TRAIN_DATA[9])
    ensures WellFormed(WHAT_ARE_YOU_DOING) && GoldDoc(WHAT_ARE_YOU_DOING) == WHAT_ARE_YOU_DOING_GOLD
  {
    Validates(WHAT_ARE_YOU_DOING, 0);
  }

  lemma AnythingNewGold()
    ensures TRAIN_DATA[10] == ANYTHING_NEW && WellFormed(TRAIN_DATA[10])
    ensures WellFormed(ANYTHING_NEW) && GoldDoc(ANYTHING_NEW) == ANYTHING_NEW_GOLD
  {
    Validates(ANYTHING_NEW, 0);
  }

  lemma WantCoffeeGold()
    ensures TRAIN_DATA[11] == WANT_COFFEE && WellFormed(TRAIN_DATA[11])
    ensures WellFormed(WANT_COFFEE) && GoldDoc(WANT_COFFEE) == WANT_COFFEE_GOLD
  {
    Validates(WANT_COFFEE, 2);
  }

  /** The entries' texts are the sentences of the corpus: joining each
      entry's tokens with spaces gives back the annotated sentence. */
  lemma ShortTexts()
    ensures Text(HI_THERE) == "hi there" && Text(HEY_YOU) == "hey you" && Text(HELLO_BOT) == "hello bot"
    ensures Text(GOOD_MORNING) == "good morning" && Text(HI) == "hi" && Text(HOW_ARE_YOU) == "how are you"
    ensures Text(HOW_YOU_DOING) == "how you doing"
  {
  }

  lemma FourWordTexts()
    ensures Text(HOW_ARE_YOU_FEELING) == "how are you feeling" && Text(HOW_ARE_YOU_DOING) == "how are you doing"
    ensures Text(WHAT_ARE_YOU_DOING) == "What are you doing"
  {
    assert Join(["you", "feeling"], " ") == "you feeling";
    assert Join(["you", "doing"], " ") == "you doing";
  }

  lemma LongestTexts()
    ensures Text(ANYTHING_NEW) == "anything new going on" && Text(WANT_COFFEE) == "do you want a coffee"
  {
    assert Join(["going", "on"], " ") == "going on";
    assert Join(["a", "coffee"], " ") == "a coffee";
  }

  /** Every training entry passes the validator. */
  lemma CorpusWellFormed()
    ensures forall i :: 0 <= i < |TRAIN_DATA| ==> WellFormed(TRAIN_DATA[i])
  {
    HiThereGold();
    HeyYouGold();
    HelloBotGold();
    GoodMorningGold();
    HiGold();
    HowAreYouGold();
    HowAreYouFeelingGold();
    HowAreYouDoingGold();
    HowYouDoingGold();
    WhatAreYouDoingGold();
    AnythingNewGold();
    WantCoffeeGold();
    forall i | 0 <= i < |TRAIN_DATA| ensures WellFormed(TRAIN_DATA[i]) {
      assert i in {0, 1, 2, 3, 4, 5, 6, 7, 8, 9, 10, 11};
    }
  }

  // ---------------------------------------------------------------------
  // Label registration

  /** The labels of one entry. */
  function DepSet(deps: seq<string>): set<string> {
    set k | 0 <= k < |deps| :: deps[k]
  }

  /** The labels registered after the first `|data|` entries, in loop order. */
  function CorpusLabels(data: seq<Example>): (labels: set<string>)
    ensures forall l :: l in labels <==>
      exists i, k :: 0 <= i < |data| && 0 <= k < |data[i].deps| && data[i].deps[k] == l
  {
    if |data| == 0 then {}
    else
      var init := data[..|data| - 1];
      assert forall i :: 0 <= i < |init| ==> init[i] == data[i];
      CorpusLabels(init) + DepSet(data[|data| - 1].deps)
  }

  /** The registration loop: every label of every entry is added to the
      parser's label set, duplicates included. */
  method RegisterLabels(data: seq<Example>) returns (labels: set<string>)
    ensures labels == CorpusLabels(data)
  {
    labels := {};
    var i := 0;
    while i < |data|
      invariant 0 <= i <= |data|
      invariant labels == CorpusLabels(data[..i])
    {
      var deps := data[i].deps;
      var j := 0;
      while j < |deps|
        invariant 0 <= j <= |deps|
        invariant labels == CorpusLabels(data[..i]) + DepSet(deps[..j])
      {
        assert DepSet(deps[..j + 1]) == DepSet(deps[..j]) + {deps[j]} by {
          assert forall k :: 0 <= k < j ==> deps[..j + 1][k] == deps[..j][k];
        }
        labels := labels + {deps[j]};
        j := j + 1;
      }
      assert deps[..j] == deps;
      assert data[..i + 1][..i] == data[..i];
      i := i + 1;
    }
    assert data[..|data|] == data;
  }

  /** Registering a batch whose labels are all known changes nothing. */
  lemma ReRegisterIsNoOp(data: seq<Example>, more: seq<Example>)
    requires CorpusLabels(more) <= CorpusLabels(data)
    ensures CorpusLabels(data + more) == CorpusLabels(data)
  {
    var both := data + more;
    forall l | l in CorpusLabels(both) ensures l in CorpusLabels(data) {
      var i, k :| 0 <= i < |both| && 0 <= k < |both[i].deps| && both[i].deps[k] == l;
      if i >= |data| {
        assert more[i - |data|].deps[k] == l;
      }
    }
    forall l | l in CorpusLabels(data) ensures l in CorpusLabels(both) {
      var i, k :| 0 <= i < |data| && 0 <= k < |data[i].deps| && data[i].deps[k] == l;
      assert both[i] == data[i];
    }
  }

  /** The corpus registers exactly ROOT, "-", TARGET, QUALITY, STATE, OBJECT. */
  lemma CorpusLabelSet()
    ensures CorpusLabels(TRAIN_DATA) == {"ROOT", "-", "TARGET", "QUALITY", "STATE", "OBJECT"}
  {
    var six := {"ROOT", "-", "TARGET", "QUALITY", "STATE", "OBJECT"};
    forall l | l in CorpusLabels(TRAIN_DATA) ensures l in six {
      var i, k :| 0 <= i < |TRAIN_DATA| && 0 <= k < |TRAIN_DATA[i].deps| && TRAIN_DATA[i].deps[k] == l;
    }
    assert TRAIN_DATA[0].deps[0] == "ROOT";
    assert TRAIN_DATA[0].deps[1] == "-";
    assert TRAIN_DATA[1].deps[1] == "TARGET";
    assert TRAIN_DATA[3].deps[0] == "QUALITY";
    assert TRAIN_DATA[5].deps[1] == "STATE";
    assert TRAIN_DATA[11].deps[4] == "OBJECT";
  }

  // ---------------------------------------------------------------------
  // test_model

  const VOCABULARY := Vocabulary(
    ["hi", "hello", "hey", "morning", "afternoon", "yo", "hellow", "wazzzaa", "wadup"],
    ["how", "what", "want"],
    ["bot", "you", "chatbot"],
    ["doing", "going"],
    ["coffee"])

  const REPLIES := Replies(
    [ "Hi!",
      "Hello, how can I help you?",
      "Hi there!",
      "Hey!",
      "WAAAAAAAAAAADUUUUUUUUP" ],
    [ "Hi there! I'm a bot and you can say hi to me.",
      "Hello! I'm a greeting bot.",
      "Welcome, feel free to say hi to me anytime.",
      "Hey human! I'm a bot, but you can say hi to me and I'll do my best to try and answer." ],
    [ "I'm doing fine thank you.",
      "Thanks for asking, I'm doing alright.",
      "Right now I'm feeling great! Just a little sleepy." ],
    [ "Not much really, just hanging",
      "Actually, I have been reading a good book lately, it talks about robots taking over the worl..... not much",
      "BEEP BOOP BAP BEEP BOOOP BOOP BEEP BAP" ],
    [ "Yes please, that would be great. Please pour it in your ethernet port",
      "No thank you, I'm alergic to caffeine" ])

  const TABLES := Tables(VOCABULARY, REPLIES)

  /** test_model's copies of the word lists and pools are those of the bot,
      so it answers every doc exactly as `AI.message` does. */
  lemma SameAnswersAsBot(doc: Doc, pick: nat)
    ensures TABLES == Ai.TABLES
    ensures Classify(VOCABULARY, LabelIndex(doc)) == Classify(Ai.VOCABULARY, LabelIndex(doc))
    ensures Responses(TABLES, doc, pick) == Responses(Ai.TABLES, doc, pick)
  {
  }

  /** The loop of test_model over its parsed docs, for any tables: answers
      each doc in turn, recording its `responses` list, and stops at the
      first doc whose lookups raise. */
  method AnswerEach(tables: Tables, docs: seq<Doc>, picks: seq<nat>)
    returns (printed: seq<seq<string>>, failure: Option<Error>)
    requires |picks| == |docs|
    ensures |printed| <= |docs|
    ensures forall k :: 0 <= k < |printed| ==> Responses(tables, docs[k], picks[k]) == Ok(printed[k])
    ensures failure.None? <==> |printed| == |docs|
    ensures failure.Some? ==> Responses(tables, docs[|printed|], picks[|printed|]) == Err(failure.value)
  {
    printed := [];
    var i := 0;
    while i < |docs|
      invariant 0 <= i <= |docs| && |printed| == i
      invariant forall k :: 0 <= k < i ==> Responses(tables, docs[k], picks[k]) == Ok(printed[k])
    {
      var responses := Answer(tables, docs[i], picks[i]);
      if responses.Err? {
        return printed, Some(responses.error);
      }
      printed := printed + [responses.value];
      i := i + 1;
    }
    failure := None;
  }

  /** test_model: its own tables, then the loop over the docs. */
  method TestModel(docs: seq<Doc>, picks: seq<nat>) returns (printed: seq<seq<string>>, failure: Option<Error>)
    requires |picks| == |docs|
    ensures |printed| <= |docs|
    ensures forall k :: 0 <= k < |printed| ==> Responses(TABLES, docs[k], picks[k]) == Ok(printed[k])
    ensures failure.None? <==> |printed| == |docs|
    ensures failure.Some? ==> Responses(TABLES, docs[|printed|], picks[|printed|]) == Err(failure.value)
  {
    printed, failure := AnswerEach(TABLES, docs, picks);
  }

  // ---------------------------------------------------------------------
  // The gold annotations, classified

  /** The doc a perfect parser would produce for a training entry. */
  function GoldDoc(ex: Example): (doc: Doc)
    requires Aligned(ex) && HeadsInRange(ex)
    ensures |doc| == |ex.deps|
    ensures forall k :: 0 <= k < |doc| ==> doc[k] == Token(ex.words[k], ex.deps[k], ex.heads[k] as nat)
  {
    seq(|ex.deps|, k requires 0 <= k < |ex.deps| => Token(ex.words[k], ex.deps[k], ex.heads[k] as nat))
  }

  /** test_model's verdict on the gold parse of an entry. */
  function GoldOutcome(ex: Example): Result<Intent>
    requires Aligned(ex) && HeadsInRange(ex)
  {
    Classify(VOCABULARY, LabelIndex(GoldDoc(ex)))
  }

  /** Last wins on "how are you feeling": STATE is "feeling" (token 3),
      not "are" (token 1); TARGET is "you" (token 2). */
  lemma HowAreYouFeelingIndex()
    ensures var index := LabelIndex(HOW_ARE_YOU_FEELING_GOLD);
      index[STATE] == HOW_ARE_YOU_FEELING_GOLD[3] && index[STATE].text == "feeling"
      && index[TARGET] == HOW_ARE_YOU_FEELING_GOLD[2] && index[TARGET].text == "you"
  {
    LastWins(HOW_ARE_YOU_FEELING_GOLD, 3);
    LastWins(HOW_ARE_YOU_FEELING_GOLD, 2);
  }

  lemma HowAreYouIndex()
    ensures var index := LabelIndex(HOW_ARE_YOU_GOLD);
      ROOT in index && index[ROOT].text == "how" && STATE in index
      && TARGET in index && index[TARGET].text == "you"
  {
    LastWins(HOW_ARE_YOU_GOLD, 0);
    LastWins(HOW_ARE_YOU_GOLD, 1);
    LastWins(HOW_ARE_YOU_GOLD, 2);
  }

  /** "how" with a STATE and the TARGET "you" asks after the bot. */
  lemma HowAboutYouIsSelfState(index: map<string, Token>)
    requires ROOT in index && index[ROOT].text == "how" && STATE in index
    requires TARGET in index && index[TARGET].text == "you"
    ensures Classify(VOCABULARY, index) == Ok(SelfState)
  {
    LowerFixesExactlyLower("how");
    LowerFixesExactlyLower("you");
  }

  lemma HowAreYouIsSelfState()
    ensures Classify(VOCABULARY, LabelIndex(HOW_ARE_YOU_GOLD)) == Ok(SelfState)
  {
    HowAreYouIndex();
    HowAboutYouIsSelfState(LabelIndex(HOW_ARE_YOU_GOLD));
  }

  lemma WhatAreYouDoingIndex()
    ensures var index := LabelIndex(WHAT_ARE_YOU_DOING_GOLD);
      ROOT in index && index[ROOT].text == "What" && STATE in index
      && TARGET in index && index[TARGET].text == "you"
  {
    LastWins(WHAT_ARE_YOU_DOING_GOLD, 0);
    LastWins(WHAT_ARE_YOU_DOING_GOLD, 2);
    LastWins(WHAT_ARE_YOU_DOING_GOLD, 3);
  }

  /** A capitalised question word still opens the self-state test. */
  lemma CapitalWhatAboutYouIsSelfState(index: map<string, Token>)
    requires ROOT in index && index[ROOT].text == "What" && STATE in index
    requires TARGET in index && index[TARGET].text == "you"
    ensures Classify(VOCABULARY, index) == Ok(SelfState)
  {
    assert Lower("What") == "what";
    LowerFixesExactlyLower("you");
  }

  lemma WhatAreYouDoingIsSelfState()
    ensures Classify(VOCABULARY, LabelIndex(WHAT_ARE_YOU_DOING_GOLD)) == Ok(SelfState)
  {
    WhatAreYouDoingIndex();
    CapitalWhatAboutYouIsSelfState(LabelIndex(WHAT_ARE_YOU_DOING_GOLD));
  }

  lemma HowYouDoingIndex()
    ensures var index := LabelIndex(HOW_YOU_DOING_GOLD);
      ROOT in index && index[ROOT].text == "how" && STATE in index
      && TARGET in index && index[TARGET].text == "doing"
  {
    LastWins(HOW_YOU_DOING_GOLD, 0);
    LastWins(HOW_YOU_DOING_GOLD, 1);
    LastWins(HOW_YOU_DOING_GOLD, 2);
  }

  /** "how" with the action word "doing" as TARGET asks what the bot does. */
  lemma HowDoingIsAction(index: map<string, Token>)
    requires ROOT in index && index[ROOT].text == "how" && STATE in index
    requires TARGET in index && index[TARGET].text == "doing"
    ensures Classify(VOCABULARY, index) == Ok(Action)
  {
    LowerFixesExactlyLower("how");
    LowerFixesExactlyLower("doing");
  }

  lemma HowYouDoingIsAction()
    ensures Classify(VOCABULARY, LabelIndex(HOW_YOU_DOING_GOLD)) == Ok(Action)
  {
    HowYouDoingIndex();
    HowDoingIsAction(LabelIndex(HOW_YOU_DOING_GOLD));
  }

  lemma WantCoffeeIndex()
    ensures var index := LabelIndex(WANT_COFFEE_GOLD);
      ROOT in index && index[ROOT].text == "want" && STATE !in index
      && TARGET in index && index[TARGET].text == "you"
      && OBJECT in index && index[OBJECT].text == "coffee"
  {
    LastWins(WANT_COFFEE_GOLD, 1);
    LastWins(WANT_COFFEE_GOLD, 2);
    LastWins(WANT_COFFEE_GOLD, 4);
    WantCoffeeHasNoState();
  }

  lemma WantCoffeeHasNoState()
    ensures STATE !in LabelIndex(WANT_COFFEE_GOLD)
  {
    assert STATE !in Labels(WANT_COFFEE_GOLD);
  }

  /** "want" with no STATE, a non-action TARGET and the object "coffee"
      falls through to the coffee reply. */
  lemma WantCoffeeWordsAreCoffee(index: map<string, Token>)
    requires ROOT in index && index[ROOT].text == "want" && STATE !in index
    requires TARGET in index && index[TARGET].text == "you"
    requires OBJECT in index && index[OBJECT].text == "coffee"
    ensures Classify(VOCABULARY, index) == Ok(Coffee)
  {
    LowerFixesExactlyLower("want");
    LowerFixesExactlyLower("you");
    LowerFixesExactlyLower("coffee");
  }

  lemma WantCoffeeIsCoffee()
    ensures Classify(VOCABULARY, LabelIndex(WANT_COFFEE_GOLD)) == Ok(Coffee)
  {
    WantCoffeeIndex();
    WantCoffeeWordsAreCoffee(LabelIndex(WANT_COFFEE_GOLD));
  }

  lemma GoodMorningIsGreeting()
    ensures Classify(VOCABULARY, LabelIndex(GOOD_MORNING_GOLD)) == Ok(Greeting)
  {
    LastWins(GOOD_MORNING_GOLD, 1);
    LowerFixesExactlyLower("morning");
  }

  lemma AnythingNewIsWelcome()
    ensures Classify(VOCABULARY, LabelIndex(ANYTHING_NEW_GOLD)) == Ok(Welcome)
  {
    LastWins(ANYTHING_NEW_GOLD, 0);
    LowerFixesExactlyLower("anything");
  }

  /** test_model's verdicts on the gold parses of the corpus. */
  lemma GoldOutcomes()
    ensures WellFormed(HOW_ARE_YOU) && GoldOutcome(HOW_ARE_YOU) == Ok(SelfState)
    ensures WellFormed(WHAT_ARE_YOU_DOING) && GoldOutcome(WHAT_ARE_YOU_DOING) == Ok(SelfState)
    ensures WellFormed(HOW_YOU_DOING) && GoldOutcome(HOW_YOU_DOING) == Ok(Action)
    ensures WellFormed(WANT_COFFEE) && GoldOutcome(WANT_COFFEE) == Ok(Coffee)
    ensures WellFormed(GOOD_MORNING) && GoldOutcome(GOOD_MORNING) == Ok(Greeting)
    ensures WellFormed(ANYTHING_NEW) && GoldOutcome(ANYTHING_NEW) == Ok(Welcome)
  {
    HowAreYouGold();
    HowAreYouIsSelfState();
    WhatAreYouDoingGold();
    WhatAreYouDoingIsSelfState();
    HowYouDoingGold();
    HowYouDoingIsAction();
    WantCoffeeGold();
    WantCoffeeIsCoffee();
    GoodMorningGold();
    GoodMorningIsGreeting();
    AnythingNewGold();
    AnythingNewIsWelcome();
  }
}
