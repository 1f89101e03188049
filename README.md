# Chatbot intent classifier — a Dafny model

The chatbot answers a short English utterance with a canned reply. A trained
spaCy dependency parser labels the tokens of the utterance with custom
labels (`ROOT`, `STATE`, `TARGET`, `OBJECT`, `QUALITY`, `-`). `AI.message`
then does three things:

1. It folds the parsed tokens into a dictionary from label to token. When
   several tokens carry the same label, the last one wins.
2. It runs a fixed-priority if/elif chain over the dictionary and five word
   lists. The chain compares the lower-cased texts of the `ROOT`, `TARGET`
   and `OBJECT` entries with the lists. For `STATE` it only tests whether
   the label is present, and never reads its text. The chain picks one of
   six intents: greeting, self-state, action, coffee, unknown question, or
   welcome.
3. It picks a random reply from the pool of that intent, puts it in a
   one-element `responses` list and joins the list with a space.

Two lookups in the chain can raise `KeyError`:
- the `ROOT` lookup, when no token is labelled `ROOT`;
- the `TARGET` lookup, when the root is a question word and `STATE` is
  present but `TARGET` is not.

The training script has three parts the model covers:
- `TRAIN_DATA` annotates twelve sentences with per-token heads and labels.
- A loop registers every label of the corpus with the parser.
- `test_model` runs the same dictionary-and-chain logic over a batch of
  parsed docs, using its own copy of the word lists and pools.

The model has these modules:
- `Errors`: Python's `KeyError` and `IndexError` as a `Result`.
- `Strings`: ASCII `lower()`, `' '.join` and `split`.
- `Dependency`: the parsed token, the label index as a fold, and the loop
  that builds it.
- `Intent`: the classification chain as a function, with one lemma per
  branch condition.
- `Response`: the reply pools, `random.choice` with the random index made a
  parameter, and the `responses` list with its join.
- `Ai`: the bot's tables and the `AI` class, whose `Message` method is
  `message` of `ai.py` written step by step.
- `Train`: the corpus and its validator, the label-registration loop,
  `test_model`, and the outcomes of the chain on the gold parses of the
  corpus.

## Model

| member | source | states |
|---|---|---|
| Strings.Lower | ai.py:53 | `str.lower()` keeps the length, turns each upper-case ASCII letter into its lower-case letter (code point plus 32), leaves every other character unchanged, and leaves no upper-case ASCII letter |
| Strings.LowerFixesExactlyLower | ai.py:53 | lower-casing leaves a string unchanged if and only if it has no upper-case ASCII letter |
| Strings.LowerIdempotent | ai.py:53 | lower-casing twice is lower-casing once |
| Strings.AllLowerCase | ai.py:4-21 | every word of a list with no upper-case letter is left unchanged by lower-casing |
| Strings.Join | ai.py:75 | joining an empty list gives the empty string |
| Strings.JoinSingleton | ai.py:75 | `' '.join` of a one-element list is that element |
| Strings.Split | train.py:33-34 | splitting at a character gives at least one part, and no part holds the separator |
| Strings.JoinSplit | train.py:33-34 | joining the parts of a split with the separator gives back the string |
| Strings.SplitJoin | train.py:33-34 | splitting the join of separator-free parts gives back the parts |
| Strings.SplitFree | train.py:33-34 | a string without the separator splits into itself alone |
| Dependency.LabelIndex | ai.py:47 | the keys of `{t.dep_: t for t in doc}` are exactly the labels in the doc, and each entry is a token of the doc carrying that label |
| Dependency.LastWins | ai.py:47 | the entry for a label is the last token that carries it |
| Dependency.EarlierOverwritten | ai.py:47 | when a later token is the last one carrying a label, an earlier token with that label that differs from it is not the one kept |
| Dependency.BuildLabelIndex | ai.py:47 | the loop over the tokens builds exactly the fold `LabelIndex` |
| Intent.Classify | ai.py:53-70 | the if/elif chain of `message` (and of `test_model` at train.py:269-286): the ROOT lookup, the greeting test, the question test with its self-state, action and coffee sub-tests and the fixed fallback, and welcome otherwise; its properties are the lemmas below |
| Intent.ClassifyFailures | ai.py:53-66 | the chain succeeds if and only if ROOT is present and the TARGET lookup does not fail; it fails only with `KeyError("ROOT")` or `KeyError("TARGET")` |
| Intent.MissingRootFails | ai.py:53 | the chain fails on the ROOT lookup if and only if ROOT is absent |
| Intent.StateWithoutTargetFails | ai.py:56-59 | under a question-word ROOT the chain raises `KeyError("TARGET")` if and only if STATE is present without TARGET |
| Intent.GreetingFirst | ai.py:53-55 | with ROOT present, the intent is greeting if and only if the lower-cased ROOT text is a greeting word |
| Intent.SelfStateWins | ai.py:56-60 | under a question word, the intent is self-state if and only if STATE is present and the lower-cased TARGET text is a self word, whatever the action and coffee tests would say |
| Intent.ActionCondition | ai.py:59-62 | under a question word, the intent is action if and only if the TARGET lookup does not fail, the self-state test fails, and TARGET is an action word |
| Intent.CoffeeCondition | ai.py:59-64 | under a question word, the intent is coffee if and only if the earlier tests fail and OBJECT is a coffee word |
| Intent.UnknownQuestionCondition | ai.py:59-66 | under a question word, the intent is the unknown question if and only if no sub-branch matches and the TARGET lookup does not fail |
| Intent.WelcomeFallback | ai.py:68-70 | a ROOT that is neither a greeting nor a question word gives welcome, and any other index with the same ROOT entry gives the same |
| Intent.GreetingIgnoresOtherLabels | ai.py:53-55 | a greeting ROOT gives greeting whatever the other labels are |
| Intent.CaseInsensitive | ai.py:53-63 | two indexes with the same labels whose texts agree after lower-casing get the same verdict |
| Response.Pool | ai.py:5-35 | the reply pool of each intent, with the single fixed sentence of line 66 for the unknown question |
| Response.Choice | ai.py:55 | `random.choice` succeeds if and only if the pool is non-empty, else raises `IndexError`; the choice is a pool member, and a pick inside the pool selects that element |
| Response.ChoiceCoversPool | ai.py:55 | every element of a pool is chosen by some pick |
| Response.Select | ai.py:55-70 | the reply is a member of the intent's pool; the unknown question gets the fixed sentence; selection fails if and only if the pool is empty |
| Response.Responses | ai.py:50-70 | the `responses` list for one doc: the chain's error, else the error of `random.choice`, else the one chosen reply |
| Response.Respond | ai.py:75 | the reply: the `responses` list joined with a single space, or the error that ended it |
| Response.Answer | ai.py:47-70 | the per-doc body (index, chain, append to the empty list) produces `Responses`, and a successful list has one element |
| Response.OneReplyFromPool | ai.py:50-75 | a successful reply comes from a one-element `responses` list, equals its element, and belongs to the pool of the intent the chain chose |
| Response.FailsOnlyInClassify | ai.py:53-75 | with non-empty pools the reply fails exactly when the chain does, and with the chain's error |
| Response.NoRootTokenFails | ai.py:47-53 | the reply fails with `KeyError("ROOT")` if and only if no token of the doc is labelled ROOT |
| Response.FirstPickIsFirst | ai.py:55 | pick 0 selects the first element of a non-empty pool |
| Ai.VocabularyLowerCase | ai.py:4-21 | every word of the five vocabulary lists is already lower case, so each can match a lower-cased token text |
| Ai.TablesWellFormed | ai.py:4-35 | every randomly answered pool holds at least two replies, and every vocabulary word is already lower case |
| Ai.GreetingsAndQuestionsDisjoint | ai.py:4-18 | no word is both a greeting and a question word |
| Ai.ReplyFailsOnlyOnLookup | ai.py:44-75 | with the bot's tables a reply fails only with `KeyError("ROOT")` or `KeyError("TARGET")` |
| Ai.AI.constructor | ai.py:41-42 | the bot keeps the parser it is given |
| Ai.AI.Message | ai.py:44-75 | the reply is the joined `responses` of the parsed message; a successful reply belongs to the pool of the intent the chain chose; a failure is one of the two lookup errors |
| Train.Count | train.py:31-129 | the number of occurrences of a label is at most the number of labels, and zero exactly when the label is absent |
| Train.WellFormed | train.py:31-129 | the validator for one entry: at least one token and no space inside a token, as many heads and labels as tokens, every head a token index, exactly one ROOT and it heads itself |
| Train.RootAt | train.py:31-129 | a label list whose only ROOT is at position `r` has exactly one ROOT |
| Train.TextSplitsIntoWords | train.py:31-129 | splitting an entry's text at its spaces gives back its tokens, so the heads index the words of the text |
| Train.Validates | train.py:31-129 | an aligned entry whose only ROOT sits at a position that heads itself passes the validator |
| Train.HiThereGold | train.py:32-39 | "hi there" is entry 0, is well formed, and its gold parse is the annotated token list |
| Train.HeyYouGold | train.py:40-47 | "hey you" is entry 1, is well formed, and its gold parse is the annotated token list |
| Train.HelloBotGold | train.py:48-55 | "hello bot" is entry 2, is well formed, and its gold parse is the annotated token list |
| Train.GoodMorningGold | train.py:56-63 | "good morning" is entry 3, is well formed (its ROOT is token 1, not token 0), and its gold parse is the annotated token list |
| Train.HiGold | train.py:64-71 | "hi" is entry 4, is well formed, and its gold parse is the annotated token list |
| Train.HowAreYouGold | train.py:72-80 | "how are you" is entry 5, is well formed, and its gold parse is the annotated token list |
| Train.HowAreYouFeelingGold | train.py:81-88 | "how are you feeling" is entry 6, is well formed, and its gold parse is the annotated token list |
| Train.HowAreYouDoingGold | train.py:89-96 | "how are you doing" is entry 7, is well formed, and its gold parse is the annotated token list |
| Train.HowYouDoingGold | train.py:97-104 | "how you doing" is entry 8, is well formed, and its gold parse is the annotated token list |
| Train.WhatAreYouDoingGold | train.py:105-112 | "What are you doing" is entry 9, is well formed, and its gold parse is the annotated token list |
| Train.AnythingNewGold | train.py:113-120 | "anything new going on" is entry 10, is well formed, and its gold parse is the annotated token list |
| Train.WantCoffeeGold | train.py:121-128 | "do you want a coffee" is entry 11, is well formed (its ROOT is token 2, in the middle), and its gold parse is the annotated token list |
| Train.ShortTexts | train.py:31-104 | the tokens of the two- and three-word entries, joined by spaces, are the annotated sentences |
| Train.FourWordTexts | train.py:81-112 | the tokens of the four-word questions, joined by spaces, are the annotated sentences |
| Train.LongestTexts | train.py:113-128 | the tokens of "anything new going on" and "do you want a coffee", joined by spaces, are the annotated sentences |
| Train.CorpusWellFormed | train.py:31-129 | every entry has as many heads and labels as tokens, every head is a token index of its entry, and there is exactly one ROOT, which heads itself |
| Train.CorpusLabels | train.py:153-155 | a label is registered by the first entries if and only if one of their entries carries it |
| Train.RegisterLabels | train.py:153-155 | the nested registration loop produces exactly `CorpusLabels` of the corpus |
| Train.ReRegisterIsNoOp | train.py:153-155 | registering entries whose labels are all known already changes nothing |
| Train.CorpusLabelSet | train.py:31-155 | the corpus registers exactly ROOT, "-", TARGET, QUALITY, STATE and OBJECT |
| Train.SameAnswersAsBot | train.py:222-253 | test_model's word lists and pools equal the bot's, so every doc gets the same verdict and the same `responses` |
| Train.AnswerEach | train.py:255-286 | the loop gives each doc in turn its `responses` list and stops at the first doc whose lookups raise, with that doc's error |
| Train.TestModel | train.py:188-286 | test_model with its own tables answers each parsed doc as `Responses` does, up to the first failing doc |
| Train.GoldOutcome | train.py:263-286 | the verdict of test_model's index and chain on the gold parse of an entry |
| Train.HowAreYouFeelingIndex | train.py:81-88 | on "how are you feeling" the index keeps "feeling" (token 3) for STATE and "you" (token 2) for TARGET |
| Train.HowAreYouIndex | train.py:72-80 | on "how are you" the index holds "how" as ROOT, a STATE, and "you" as TARGET |
| Train.HowAboutYouIsSelfState | train.py:269-276 | "how" as ROOT with a STATE and "you" as TARGET is a self-state question |
| Train.HowAreYouIsSelfState | train.py:72-80 | the gold parse of "how are you" is classified as self-state |
| Train.WhatAreYouDoingIndex | train.py:105-112 | on "What are you doing" the index holds "What" as ROOT, a STATE, and "you" as TARGET |
| Train.CapitalWhatAboutYouIsSelfState | train.py:269-276 | the capitalised ROOT "What" is lower-cased into a question word, so with a STATE and "you" as TARGET it is a self-state question |
| Train.WhatAreYouDoingIsSelfState | train.py:105-112 | the gold parse of "What are you doing" is classified as self-state |
| Train.HowYouDoingIndex | train.py:97-104 | on "how you doing" the index holds "how" as ROOT, a STATE, and "doing" as TARGET |
| Train.HowDoingIsAction | train.py:269-278 | "how" as ROOT with a STATE and "doing" as TARGET fails the self-state test and is an action question |
| Train.HowYouDoingIsAction | train.py:97-104 | the gold parse of "how you doing" is classified as action |
| Train.WantCoffeeIndex | train.py:121-128 | on "do you want a coffee" the index holds "want" as ROOT, "you" as TARGET, "coffee" as OBJECT and no STATE |
| Train.WantCoffeeHasNoState | train.py:121-128 | no token of "do you want a coffee" is labelled STATE |
| Train.WantCoffeeWordsAreCoffee | train.py:269-280 | "want" as ROOT with no STATE, "you" as TARGET and "coffee" as OBJECT falls through to the coffee branch |
| Train.WantCoffeeIsCoffee | train.py:121-128 | the gold parse of "do you want a coffee" is classified as coffee |
| Train.GoodMorningIsGreeting | train.py:56-63 | the gold parse of "good morning" is classified as greeting, because its ROOT is "morning" |
| Train.AnythingNewIsWelcome | train.py:113-120 | the gold parse of "anything new going on" is classified as welcome |
| Train.GoldOutcomes | train.py:263-286 | the chain of test_model on the gold parses gives self-state, self-state, action, coffee, greeting and welcome for the six annotated questions and greetings |

## Left out

- Loading the spaCy model and parsing text (ai.py:42, 45; train.py:140-151, 255) are calls into a library that is not part of this model. The parser is a parameter: `AI` receives it as a function from text to `Doc`, and `TestModel` receives the parsed docs. The fifteen test sentences of train.py:189-221 are therefore not modelled, because only the parser consumes them.
- Training with `begin_training`, `shuffle`, `minibatch` and `update` (train.py:157-168) is statistical learning inside the library and is not modelled.
- Saving the model, reloading it and testing it a second time (train.py:174-185), and the `plac` command line (train.py:132-137, 296-297), are I/O and are not modelled.
- Every `print` and the `doc.ents` loop (ai.py:48, 72-73; train.py:257-260, 264, 288-293) are output only, so they are not modelled. `TestModel` returns the `responses` lists it would print.
- `random.choice` takes its index as the parameter `pick` and selects `pool[pick % |pool|]`. Which pick the random generator yields is not modelled.
- `str.lower()` is modelled for ASCII letters only. Python also lower-cases other Unicode letters, and every word list and corpus text here is ASCII.
- A token's head is the index of the head token, not a token object, and the tokenizer is not modelled. Each training entry stores the tokens of its text, and `Text` joins them with spaces. `TextSplitsIntoWords` and the three text lemmas tie these tokens to the annotated sentences.
- `annotations.get("deps", [])` (train.py:154) has a default that never applies, because every entry has `deps`. The model reads `deps` directly.
- `parser.add_label` is modelled as adding the label to a set, which is what the label set of the parser becomes.
- The docstring and closing comments about hotel and gym queries with PLACE, QUALITY and LOCATION labels (train.py:3-19, 299-320) describe example output that this code never produces.
