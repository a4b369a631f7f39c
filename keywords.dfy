/** Keyword extraction (`_extract_keywords`): lower-case, strip every
    character that is neither a word character nor whitespace, split on
    whitespace, drop short tokens and stop words, rank by frequency. */
module Keywords {
  import opened Text
  import opened Ranking

  const KeywordLimit: nat := 20

  /** Tokens of at most this many characters are dropped: a keyword is longer. */
  const MaxDroppedLength: nat := 3

  /** The stop words of `_extract_keywords`, in the order of the source. */
  const StopWords: seq<string> := [
    "the", "a", "an", "and", "or", "but", "in", "on", "at", "to", "for",
    "of", "with", "by", "is", "are", "was", "were", "be", "been", "being",
    "have", "has", "had", "do", "does", "did", "will", "would", "should",
    "could", "may", "might", "must", "can", "this", "that", "these", "those",
    "i", "you", "he", "she", "it", "we", "they", "my", "your", "his", "her",
    "its", "our", "their", "me", "him", "us", "them", "what", "which", "who",
    "when", "where", "why", "how", "all", "each", "every", "both", "few",
    "more", "most", "other", "some", "such", "no", "nor", "not", "only",
    "own", "same", "so", "than", "too", "very", "just", "now"
  ]

  /** `a` and `b` are the same word, compared character by character. */
  predicate SameWord(a: string, b: string)
  {
    |a| == |b| && (|a| == 0 || (a[0] == b[0] && SameWord(a[1..], b[1..])))
  }

  /** `w` is one of the words of `list`, checked one word at a time. */
  predicate Listed(w: string, list: seq<string>)
  {
    |list| > 0 && (SameWord(list[0], w) || Listed(w, list[1..]))
  }

  /** The character-by-character comparison is string equality. */
  lemma {:induction false} SameWordSpec(a: string, b: string)
    ensures SameWord(a, b) <==> a == b
  {
    if |a| == |b| && |a| > 0 {
      SameWordSpec(a[1..], b[1..]);
      assert a == [a[0]] + a[1..] && b == [b[0]] + b[1..];
    }
  }

  /** The word-by-word check is membership. */
  lemma {:induction false} ListedSpec(w: string, list: seq<string>)
    ensures Listed(w, list) <==> w in list
  {
    if list != [] {
      SameWordSpec(list[0], w);
      ListedSpec(w, list[1..]);
      assert list == [list[0]] + list[1..];
    }
  }

  /** `re.sub(r'[^\w\s]', '', s)`: keep word characters and whitespace. */
  function StripPunctuation(s: string): string
  {
    if s == [] then []
    else (if IsWordChar(s[0]) || IsSpace(s[0]) then [s[0]] else []) + StripPunctuation(s[1..])
  }

  /** `re.sub(r'[^\w\s]', '', text.lower())`. */
  function Normalize(text: string): string
  {
    StripPunctuation(Lower(text))
  }

  /** The leading run of non-whitespace characters of `s`. */
  function LeadingWord(s: string): (w: string)
    ensures w <= s
  {
    if s == [] || IsSpace(s[0]) then [] else [s[0]] + LeadingWord(s[1..])
  }

  /** `s.split()` with no separator: the maximal runs of non-whitespace. */
  function Tokens(s: string): seq<string>
    decreases |s|
  {
    if s == [] then []
    else if IsSpace(s[0]) then Tokens(s[1..])
    else
      var w := LeadingWord(s);
      assert |w| > 0;
      [w] + Tokens(s[|w|..])
  }

  /** A token that survives the filter of the comprehension. */
  predicate IsCandidate(w: string)
  {
    |w| > MaxDroppedLength && !Listed(w, StopWords)
  }

  /** `[w for w in words if len(w) > 3 and w not in stop_words]`. */
  function Candidates(words: seq<string>): seq<string>
  {
    if words == [] then []
    else (if IsCandidate(words[0]) then [words[0]] else []) + Candidates(words[1..])
  }

  /** The candidate tokens of a text, in order, repetitions kept. */
  function CandidateTokens(text: string): seq<string>
  {
    Candidates(Tokens(Normalize(text)))
  }

  /** `_extract_keywords(text)`: the 20 most common candidate tokens. */
  function ExtractKeywords(text: string): seq<string>
  {
    MostCommon(CandidateTokens(text), KeywordLimit)
  }

  /** Normalised text holds only lower-case word characters and whitespace,
      and keeps every word character and whitespace character of the
      lower-cased input. */
  lemma {:induction false} NormalizeChars(s: string)
    ensures forall c :: c in StripPunctuation(Lower(s)) ==> IsLowerWordChar(c) || IsSpace(c)
    ensures forall i :: 0 <= i < |s| && (IsWordChar(s[i]) || IsSpace(s[i])) ==>
      LowerChar(s[i]) in StripPunctuation(Lower(s))
  {
    if s != [] {
      NormalizeChars(s[1..]);
      assert Lower(s) == [LowerChar(s[0])] + Lower(s[1..]);
      forall i | 0 <= i < |s| && (IsWordChar(s[i]) || IsSpace(s[i]))
        ensures LowerChar(s[i]) in StripPunctuation(Lower(s))
      {
        if i > 0 {
          assert s[i] == s[1..][i - 1];
        }
      }
    }
  }

  /** `re.sub` deletes characters one at a time: the result of a
      concatenation is the concatenation of the results, so the kept
      characters stay in order, each once. */
  lemma {:induction false} StripConcat(a: string, b: string)
    ensures StripPunctuation(a + b) == StripPunctuation(a) + StripPunctuation(b)
  {
    if a == [] {
      assert a + b == b;
    } else {
      assert (a + b)[1..] == a[1..] + b;
      StripConcat(a[1..], b);
      assert StripPunctuation(a + b) ==
        (if IsWordChar(a[0]) || IsSpace(a[0]) then [a[0]] else []) + StripPunctuation(a[1..] + b);
    }
  }

  /** A single character is kept iff it is a word or whitespace character. */
  lemma StripOne(c: char)
    ensures StripPunctuation([c]) == if IsWordChar(c) || IsSpace(c) then [c] else []
  {
    assert [c][1..] == [];
  }

  /** Normalisation works character by character: it distributes over
      concatenation, and one character becomes its lower-case form when that
      is a word or whitespace character, and nothing otherwise. */
  lemma NormalizeConcat(a: string, b: string)
    ensures Normalize(a + b) == Normalize(a) + Normalize(b)
    ensures |a| == 1 ==>
      Normalize(a) == if IsWordChar(a[0]) || IsSpace(a[0]) then [LowerChar(a[0])] else []
  {
    LowerConcat(a, b);
    StripConcat(Lower(a), Lower(b));
    if |a| == 1 {
      assert Lower(a) == [LowerChar(a[0])];
      StripOne(LowerChar(a[0]));
    }
  }

  lemma {:induction false} LeadingWordChars(s: string)
    ensures forall c :: c in LeadingWord(s) ==> !IsSpace(c)
    ensures s != [] && !IsSpace(s[0]) ==> |LeadingWord(s)| > 0
  {
    if s != [] && !IsSpace(s[0]) {
      LeadingWordChars(s[1..]);
    }
  }

  /** Every token is non-empty, holds no whitespace, and is made of
      characters of the text it was split from. */
  lemma {:induction false} TokensChars(s: string)
    ensures forall w :: w in Tokens(s) ==>
      w != [] && forall c :: c in w ==> c in s && !IsSpace(c)
    decreases |s|
  {
    if s != [] {
      if IsSpace(s[0]) {
        TokensChars(s[1..]);
      } else {
        var w := LeadingWord(s);
        LeadingWordChars(s);
        TokensChars(s[|w|..]);
        forall v | v in Tokens(s)
          ensures v != [] && forall c :: c in v ==> c in s && !IsSpace(c)
        {
          if v != w {
            assert v in Tokens(s[|w|..]);
            forall c | c in v
              ensures c in s
            {
              assert c in s[|w|..];
            }
          } else {
            forall c | c in v
              ensures c in s
            {
              assert c in s[..|w|];
            }
          }
        }
      }
    }
  }

  /** The filter keeps exactly the candidate members of its input, with their
      multiplicities. */
  lemma {:induction false} CandidatesSpec(words: seq<string>)
    ensures forall w :: w in Candidates(words) <==> w in words && IsCandidate(w)
    ensures forall w :: IsCandidate(w) ==> Occurrences(w, Candidates(words)) == Occurrences(w, words)
  {
    if words != [] {
      CandidatesSpec(words[1..]);
      assert words == [words[0]] + words[1..];
    }
  }

  /** What `_extract_keywords` returns: at most 20 distinct tokens, each
      longer than 3 characters, not a stop word, made only of lower-case word
      characters; ordered by non-increasing frequency in the text with ties in
      first-occurrence order; and no candidate token that was left out ranks
      above a returned one. An empty text yields no keywords. */
  lemma ExtractKeywordsSpec(text: string)
    ensures |ExtractKeywords(text)| <= KeywordLimit
    ensures forall w :: w in ExtractKeywords(text) ==>
      IsCandidate(w) && w in Tokens(Normalize(text)) && forall c :: c in w ==> IsLowerWordChar(c)
    ensures Ranked(ExtractKeywords(text), CandidateTokens(text))
    ensures forall w :: w in CandidateTokens(text) && w !in ExtractKeywords(text) ==>
      |ExtractKeywords(text)| == KeywordLimit &&
      forall k :: k in ExtractKeywords(text) ==> RanksBefore(k, w, CandidateTokens(text))
    ensures text == [] ==> ExtractKeywords(text) == []
  {
    var ws := CandidateTokens(text);
    MostCommonSpec(ws, KeywordLimit);
    CandidatesSpec(Tokens(Normalize(text)));
    NormalizeChars(text);
    TokensChars(Normalize(text));
    if text == [] {
      assert Lower(text) == [];
      assert ws == [];
    }
  }
}
