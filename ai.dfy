/** The chatbot front end: its word lists and reply pools, and the `AI`
    object whose `Message` answers one utterance. */
module Ai {
  import opened Errors
  import opened Strings
  import opened Dependency
  import opened Intent
  import opened Response

  const VOCABULARY := Vocabulary(
    ["hi", "hello", "hey", "morning", "afternoon", "yo", "hellow", "wazzzaa", "wadup"],
    ["how", "what", "want"],
    ["bot", "you", "chatbot"],
    ["doing", "going"],
    ["coffee"])

  const REPLIES := Replies(
    [ "Hi!",
      "Hello, how can I help you?",
      "Hi there!",
      "Hey!",
      "WAAAAAAAAAAADUUUUUUUUP" ],
    [ "Hi there! I'm a bot and you can say hi to me.",
      "Hello! I'm a greeting bot.",
      "Welcome, feel free to say hi to me anytime.",
      "Hey human! I'm a bot, but you can say hi to me and I'll do my best to try and answer." ],
    [ "I'm doing fine thank you.",
      "Thanks for asking, I'm doing alright.",
      "Right now I'm feeling great! Just a little sleepy." ],
    [ "Not much really, just hanging",
      "Actually, I have been reading a good book lately, it talks about robots taking over the worl..... not much",
      "BEEP BOOP BAP BEEP BOOOP BOOP BEEP BAP" ],
    [ "Yes please, that would be great. Please pour it in your ethernet port",
      "No thank you, I'm alergic to caffeine" ])

  const TABLES := Tables(VOCABULARY, REPLIES)

  /** Every vocabulary word is already lower case, so each can match a
      lower-cased token text. */
  lemma VocabularyLowerCase()
    ensures forall w :: w in VOCABULARY.greetings ==> Lower(w) == w
    ensures forall w :: w in VOCABULARY.questions ==> Lower(w) == w
    ensures forall w :: w in VOCABULARY.targetsSelf ==> Lower(w) == w
    ensures forall w :: w in VOCABULARY.actions ==> Lower(w) == w
    ensures forall w :: w in VOCABULARY.objects ==> Lower(w) == w
  {
    AllLowerCase(VOCABULARY.greetings);
    AllLowerCase(VOCABULARY.questions);
    AllLowerCase(VOCABULARY.targetsSelf);
    AllLowerCase(VOCABULARY.actions);
    AllLowerCase(VOCABULARY.objects);
  }

  /** Every randomly answered pool has at least two alternatives, and all
      vocabulary words are already lower case, so each can match. */
  lemma TablesWellFormed()
    ensures PoolsNonEmpty(REPLIES)
    ensures |REPLIES.greeting| >= 2 && |REPLIES.welcome| >= 2 && |REPLIES.selfState| >= 2
      && |REPLIES.action| >= 2 && |REPLIES.coffee| >= 2
    ensures forall w :: w in VOCABULARY.greetings ==> Lower(w) == w
    ensures forall w :: w in VOCABULARY.questions ==> Lower(w) == w
    ensures forall w :: w in VOCABULARY.targetsSelf ==> Lower(w) == w
    ensures forall w :: w in VOCABULARY.actions ==> Lower(w) == w
    ensures forall w :: w in VOCABULARY.objects ==> Lower(w) == w
  {
    VocabularyLowerCase();
  }

  /** The greeting and question word lists are disjoint, so no ROOT word
      has its question meaning shadowed by the greeting test. */
  lemma GreetingsAndQuestionsDisjoint()
    ensures forall w :: w in VOCABULARY.greetings ==> w !in VOCABULARY.questions
  {
  }

  /** With these tables a reply fails only by a `KeyError` in the chain. */
  lemma ReplyFailsOnlyOnLookup(doc: Doc, pick: nat)
    ensures Respond(TABLES, doc, pick).Err? ==>
      Respond(TABLES, doc, pick).error in {KeyError(ROOT), KeyError(TARGET)}
  {
    FailsOnlyInClassify(TABLES, doc, pick);
  }

  /** The bot.  Its one field is the trained parser, fixed at construction
      and treated here as an opaque function from text to parsed doc. */
  class AI {
    const nlp: string -> Doc

    constructor (parser: string -> Doc)
      ensures nlp == parser
    {
      nlp := parser;
    }

    /** Answers `msg`: parse it, index the labels, run the chain, append
        the chosen reply to `responses` and join that list with `' '`. */
    method Message(msg: string, pick: nat) returns (reply: Result<string>)
      ensures reply == Respond(TABLES, nlp(msg), pick)
      ensures reply.Ok? ==>
        exists intent :: Classify(VOCABULARY, LabelIndex(nlp(msg))) == Ok(intent) && reply.value in Pool(REPLIES, intent)
      ensures reply.Err? ==> reply.error in {KeyError(ROOT), KeyError(TARGET)}
    {
      var doc := nlp(msg);
      var labelDict := BuildLabelIndex(doc);
      var responses: seq<string> := [];
      if ROOT !in labelDict {
        return Err(KeyError(ROOT));
      }
      var root := Lower(labelDict[ROOT].text);
      var choice: Result<string>;
      if root in VOCABULARY.greetings {
        choice := Choice(REPLIES.greeting, pick);
      } else if root in VOCABULARY.questions {
        var selfState := false;
        if STATE in labelDict {
          if TARGET !in labelDict {
            return Err(KeyError(TARGET));
          }
          selfState := Lower(labelDict[TARGET].text) in VOCABULARY.targetsSelf;
        }
        if selfState {
          choice := Choice(REPLIES.selfState, pick);
        } else if TARGET in labelDict && Lower(labelDict[TARGET].text) in VOCABULARY.actions {
          choice := Choice(REPLIES.action, pick);
        } else if OBJECT in labelDict && Lower(labelDict[OBJECT].text) in VOCABULARY.objects {
          choice := Choice(REPLIES.coffee, pick);
        } else {
          choice := Ok(UNKNOWN_REPLY);
        }
      } else {
        choice := Choice(REPLIES.welcome, pick);
      }
      // The pools are constant and non-empty, so `random.choice` never raises.
      TablesWellFormed();
      assert choice.Ok?;
      responses := responses + [choice.value];
      reply := Ok(Join(responses, " "));
      OneReplyFromPool(TABLES, doc, pick);
      ReplyFailsOnlyOnLookup(doc, pick);
    }
  }
}
