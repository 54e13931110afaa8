/**
  The tokenizer interface: one abstract operation, tokenizeToList, and two
  views derived from it, a multiset of tokens and a set of tokens.

  Tokens are modelled as non-null strings, since the interface forbids null
  tokens; the views therefore never hold null.
 */
module Tokenizers {

  type Token = string

  /** A tokenizer object. What it does is given by a TokenizeToList. */
  datatype Tokenizer = Tokenizer(id: nat)

  /** The abstract method tokenizeToList, as implemented by each tokenizer object. */
  type TokenizeToList = (Tokenizer, string) -> seq<Token>

  /** The number of times `x` occurs in `tokens`. */
  function Occurrences(tokens: seq<Token>, x: Token): (n: nat)
    ensures n <= |tokens|
    ensures n == 0 <==> x !in tokens
  {
    if tokens == [] then 0
    else (if tokens[0] == x then 1 else 0) + Occurrences(tokens[1..], x)
  }

  /** No token occurs twice in `tokens`. */
  predicate NoDuplicates(tokens: seq<Token>)
  {
    forall i, j :: 0 <= i < j < |tokens| ==> tokens[i] != tokens[j]
  }

  /** tokenizeToMultiset: the tokens of tokenizeToList, counted. */
  function TokenizeToMultiset(tokenizeToList: TokenizeToList, tokenizer: Tokenizer, input: string): (r: multiset<Token>)
    ensures forall x :: r[x] == Occurrences(tokenizeToList(tokenizer, input), x)
    ensures |r| == |tokenizeToList(tokenizer, input)|
    ensures tokenizeToList(tokenizer, input) == [] ==> r == multiset{}
  {
    var tokens := tokenizeToList(tokenizer, input);
    MultisetCountsOccurrences(tokens);
    multiset(tokens)
  }

  /** tokenizeToSet: the distinct tokens of tokenizeToList. */
  function TokenizeToSet(tokenizeToList: TokenizeToList, tokenizer: Tokenizer, input: string): (r: set<Token>)
    ensures forall x :: x in r <==> x in tokenizeToList(tokenizer, input)
    ensures |r| <= |tokenizeToList(tokenizer, input)|
    ensures |r| == |tokenizeToList(tokenizer, input)| <==> NoDuplicates(tokenizeToList(tokenizer, input))
    ensures tokenizeToList(tokenizer, input) == [] ==> r == {}
  {
    var tokens := tokenizeToList(tokenizer, input);
    DistinctCardinality(tokens);
    set x | x in tokens
  }

  /** The multiset of a token list counts each token as often as it occurs. */
  lemma {:induction false} MultisetCountsOccurrences(tokens: seq<Token>)
    ensures forall x :: multiset(tokens)[x] == Occurrences(tokens, x)
  {
    if tokens != [] {
      MultisetCountsOccurrences(tokens[1..]);
      assert tokens == [tokens[0]] + tokens[1..];
      assert multiset(tokens) == multiset{tokens[0]} + multiset(tokens[1..]);
    }
  }

  /** Removing duplicates never grows a list, and shrinks it exactly when it has a duplicate. */
  lemma {:induction false} DistinctCardinality(tokens: seq<Token>)
    ensures |set x | x in tokens| <= |tokens|
    ensures |set x | x in tokens| == |tokens| <==> NoDuplicates(tokens)
  {
    if tokens != [] {
      var rest := tokens[1..];
      DistinctCardinality(rest);
      assert (set x | x in tokens) == {tokens[0]} + (set x | x in rest);
      if tokens[0] in rest {
        var k :| 0 <= k < |rest| && rest[k] == tokens[0];
        assert tokens[0] == tokens[k + 1];
        assert (set x | x in tokens) == (set x | x in rest);
      } else {
        assert tokens[0] !in (set x | x in rest);
        if NoDuplicates(rest) {
          forall i, j | 0 <= i < j < |tokens| ensures tokens[i] != tokens[j] {
            if i > 0 {
              assert tokens[i] == rest[i - 1] && tokens[j] == rest[j - 1];
            } else {
              assert tokens[j] == rest[j - 1];
            }
          }
        }
        if NoDuplicates(tokens) {
          forall i, j | 0 <= i < j < |rest| ensures rest[i] != rest[j] {
            assert rest[i] == tokens[i + 1] && rest[j] == tokens[j + 1];
          }
        }
      }
    }
  }

  /** The distinct elements of the multiset view are the set view. */
  lemma SupportOfMultisetIsSet(tokenizeToList: TokenizeToList, tokenizer: Tokenizer, input: string)
    ensures (set x | x in TokenizeToMultiset(tokenizeToList, tokenizer, input)) == TokenizeToSet(tokenizeToList, tokenizer, input)
  {
  }

}
