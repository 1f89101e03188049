/** The parser's output as the core sees it, and the label index that
    `{t.dep_ : t for t in doc}` builds from it. */
module Dependency {

  const ROOT := "ROOT"
  const STATE := "STATE"
  const TARGET := "TARGET"
  const OBJECT := "OBJECT"

  /** One parsed token: its text, its dependency label and the position of
      its head token in the same doc. */
  datatype Token = Token(text: string, dep: string, head: nat)

  /** A parsed utterance, tokens in order.  Nothing is assumed about it:
      labels may repeat or be missing, heads may point anywhere. */
  type Doc = seq<Token>

  /** The labels that occur in `doc`. */
  function Labels(doc: Doc): set<string> {
    set k | 0 <= k < |doc| :: doc[k].dep
  }

  /** The dictionary comprehension over `doc`, as a left fold: each token is
      stored under its label, replacing whatever an earlier token put there. */
  function LabelIndex(doc: Doc): (index: map<string, Token>)
    ensures index.Keys == Labels(doc)
    ensures forall l :: l in index ==> index[l] in doc && index[l].dep == l
  {
    if |doc| == 0 then map[]
    else
      var init := doc[..|doc| - 1];
      assert forall k :: 0 <= k < |init| ==> init[k] == doc[k];
      LabelIndex(init)[doc[|doc| - 1].dep := doc[|doc| - 1]]
  }

  /** Last wins: the entry for a label is the last token carrying it. */
  lemma {:induction false} LastWins(doc: Doc, k: nat)
    requires k < |doc|
    requires forall j :: k < j < |doc| ==> doc[j].dep != doc[k].dep
    ensures doc[k].dep in LabelIndex(doc) && LabelIndex(doc)[doc[k].dep] == doc[k]
  {
    if k < |doc| - 1 {
      var init := doc[..|doc| - 1];
      LastWins(init, k);
    }
  }

  /** A token followed later by another token with the same label is not
      the one the index keeps for that label (unless the two are equal). */
  lemma {:induction false} EarlierOverwritten(doc: Doc, i: nat, j: nat)
    requires i < j < |doc| && doc[i].dep == doc[j].dep && doc[i] != doc[j]
    requires forall m :: j < m < |doc| ==> doc[m].dep != doc[j].dep
    ensures LabelIndex(doc)[doc[i].dep] != doc[i]
  {
    LastWins(doc, j);
  }

  /** The index as `ai.py` builds it: a loop over the tokens, each
      iteration assigning one dictionary entry. */
  method BuildLabelIndex(doc: Doc) returns (index: map<string, Token>)
    ensures index == LabelIndex(doc)
  {
    index := map[];
    var i := 0;
    while i < |doc|
      invariant 0 <= i <= |doc|
      invariant index == LabelIndex(doc[..i])
    {
      assert doc[..i + 1][..i] == doc[..i];
      index := index[doc[i].dep := doc[i]];
      i := i + 1;
    }
    assert doc[..|doc|] == doc;
  }
}
