/** From intent to reply text: `random.choice` over the intent's pool, put
    in a one-element `responses` list, joined with `' '`.  The random choice
    is a caller-supplied number `pick`; `pick % |pool|` is the chosen index,
    so every `pick < |pool|` selects exactly `pool[pick]`. */
module Response {
  import opened Errors
  import opened Strings
  import opened Dependency
  import opened Intent

  /** The canned reply pools of the five randomly answered intents. */
  datatype Replies = Replies(
    greeting: seq<string>,
    welcome: seq<string>,
    selfState: seq<string>,
    action: seq<string>,
    coffee: seq<string>)

  /** Everything a reply depends on besides the doc and the random pick. */
  datatype Tables = Tables(vocab: Vocabulary, replies: Replies)

  /** The one fixed reply to a question the chain does not recognise. */
  const UNKNOWN_REPLY := "I'm sorry, I'm not sure how to answer that."

  /** The replies an intent may get; the unknown question has exactly one. */
  function Pool(replies: Replies, intent: Intent): seq<string> {
    match intent
    case Greeting => replies.greeting
    case SelfState => replies.selfState
    case Action => replies.action
    case Coffee => replies.coffee
    case UnknownQuestion => [UNKNOWN_REPLY]
    case Welcome => replies.welcome
  }

  /** `random.choice(pool)` with the random index supplied as `pick`. */
  function Choice(pool: seq<string>, pick: nat): (r: Result<string>)
    ensures r.Ok? <==> |pool| > 0
    ensures r.Err? ==> r.error == IndexError
    ensures r.Ok? ==> r.value in pool
    ensures pick < |pool| ==> r == Ok(pool[pick])
  {
    if |pool| == 0 then Err(IndexError) else Ok(pool[pick % |pool|])
  }

  /** Every element of a pool is chosen by some pick. */
  lemma ChoiceCoversPool(pool: seq<string>, j: nat)
    requires j < |pool|
    ensures exists pick: nat :: Choice(pool, pick) == Ok(pool[j])
  {
    assert Choice(pool, j) == Ok(pool[j]);
  }

  /** The reply to an intent: a random member of its pool, except for the
      unknown question, which is answered with the fixed string directly. */
  function Select(replies: Replies, intent: Intent, pick: nat): (r: Result<string>)
    ensures r.Ok? ==> r.value in Pool(replies, intent)
    ensures intent == UnknownQuestion ==> r == Ok(UNKNOWN_REPLY)
    ensures r.Err? <==> |Pool(replies, intent)| == 0
  {
    if intent == UnknownQuestion then Ok(UNKNOWN_REPLY)
    else Choice(Pool(replies, intent), pick)
  }

  /** The randomly answered pools are all non-empty, so selection never raises. */
  predicate PoolsNonEmpty(replies: Replies) {
    |replies.greeting| > 0 && |replies.welcome| > 0 && |replies.selfState| > 0
    && |replies.action| > 0 && |replies.coffee| > 0
  }

  /** The `responses` list the Python code builds for one doc. */
  function Responses(tables: Tables, doc: Doc, pick: nat): Result<seq<string>> {
    var intent := Classify(tables.vocab, LabelIndex(doc));
    if intent.Err? then Err(intent.error)
    else
      var reply := Select(tables.replies, intent.value, pick);
      if reply.Err? then Err(reply.error) else Ok([reply.value])
  }

  /** The per-doc body shared by `AI.message` and `test_model`: build the
      label dictionary, run the chain, and append the chosen reply to an
      initially empty `responses` list. */
  method Answer(tables: Tables, doc: Doc, pick: nat) returns (responses: Result<seq<string>>)
    ensures responses == Responses(tables, doc, pick)
    ensures responses.Ok? ==> |responses.value| == 1
  {
    var labelDict := BuildLabelIndex(doc);
    var intent := Classify(tables.vocab, labelDict);
    if intent.Err? {
      assert Responses(tables, doc, pick) == Err(intent.error);
      return Err(intent.error);
    }
    var reply := Select(tables.replies, intent.value, pick);
    if reply.Err? {
      return Err(reply.error);
    }
    var list: seq<string> := [];
    list := list + [reply.value];
    assert list == [reply.value];
    assert Responses(tables, doc, pick) == Ok([reply.value]);
    responses := Ok(list);
  }

  /** The reply text: the `responses` list joined with a single space. */
  function Respond(tables: Tables, doc: Doc, pick: nat): Result<string> {
    var responses := Responses(tables, doc, pick);
    if responses.Err? then Err(responses.error) else Ok(Join(responses.value, " "))
  }

  /** `responses` holds exactly one element, its join is that element, and
      it belongs to the pool of the intent the chain chose. */
  lemma OneReplyFromPool(tables: Tables, doc: Doc, pick: nat)
    requires Respond(tables, doc, pick).Ok?
    ensures Classify(tables.vocab, LabelIndex(doc)).Ok?
    ensures var intent := Classify(tables.vocab, LabelIndex(doc)).value;
      var responses := Responses(tables, doc, pick).value;
      |responses| == 1 && Respond(tables, doc, pick).value == responses[0]
      && responses[0] in Pool(tables.replies, intent)
  {
    var responses := Responses(tables, doc, pick).value;
    JoinSingleton(responses[0], " ");
  }

  /** With non-empty pools the reply fails exactly when classification does. */
  lemma FailsOnlyInClassify(tables: Tables, doc: Doc, pick: nat)
    requires PoolsNonEmpty(tables.replies)
    ensures Respond(tables, doc, pick).Err? <==> Classify(tables.vocab, LabelIndex(doc)).Err?
    ensures Respond(tables, doc, pick).Err? ==>
      Respond(tables, doc, pick).error == Classify(tables.vocab, LabelIndex(doc)).error
  {
  }

  /** A doc without a ROOT-labelled token makes the reply fail on the
      ROOT lookup, and that failure happens for no other doc. */
  lemma {:induction false} NoRootTokenFails(tables: Tables, doc: Doc, pick: nat)
    ensures Respond(tables, doc, pick) == Err(KeyError(ROOT)) <==>
      forall k :: 0 <= k < |doc| ==> doc[k].dep != ROOT
  {
    var index := LabelIndex(doc);
    if ROOT in index {
      assert ROOT in Labels(doc);
    }
  }

  /** A fixed pick selects the same pool element on every call, and pick 0
      selects the first element. */
  lemma FirstPickIsFirst(replies: Replies, intent: Intent)
    requires |Pool(replies, intent)| > 0
    ensures Select(replies, intent, 0) == Ok(Pool(replies, intent)[0])
  {
  }
}
