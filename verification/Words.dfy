/** The word list (apps/game-session/src/words.ts). */
module Words {
  import opened Basics

  const WORDS: seq<string> := [
    "사과", "바나나", "고양이", "강아지", "자전거", "비행기", "우산", "안경",
    "피아노", "기타", "축구공", "냉장고", "선풍기", "컴퓨터", "휴대폰", "시계",
    "코끼리", "기린", "펭귄", "상어", "무지개", "눈사람", "케이크", "피자",
    "햄버거", "커피", "로켓", "등대", "다리", "성", "왕관", "보물상자"
  ]

  /** The words not yet excluded, in list order. */
  function Pool(words: seq<string>, exclude: seq<string>): (r: seq<string>)
    ensures forall w :: w in r <==> w in words && w !in exclude
  {
    if words == [] then []
    else
      var n := |words| - 1;
      assert words == words[..n] + [words[n]];
      Pool(words[..n], exclude) + (if words[n] in exclude then [] else [words[n]])
  }

  /** The words `pickWord` may return. */
  function Candidates(exclude: seq<string>): (r: seq<string>)
    ensures r != []
    ensures forall w :: w in r ==> w in WORDS
  {
    var pool := Pool(WORDS, exclude);
    if pool != [] then pool else WORDS
  }

  /** What may be drawn: any word not used yet, and any word at all once all were used. */
  lemma CandidatesAre(used: seq<string>, word: string)
    ensures word in Candidates(used) <==> word in WORDS && (word !in used || forall w :: w in WORDS ==> w in used)
  {
    var pool := Pool(WORDS, used);
    assert pool == [] <==> forall w :: w in WORDS ==> w in used by {
      if pool != [] {
        assert pool[0] in pool;
      }
      if !(forall w :: w in WORDS ==> w in used) {
        var w :| w in WORDS && w !in used;
        assert w in pool;
      }
    }
  }

  lemma FirstWordsDiffer()
    ensures forall i, j :: 0 <= i < 3 && i < j < |WORDS| ==> WORDS[i] != WORDS[j]
  {
  }

  lemma EarlyWordsDiffer()
    ensures forall i, j :: 3 <= i < 6 && i < j < |WORDS| ==> WORDS[i] != WORDS[j]
  {
  }

  lemma NextWordsDiffer()
    ensures forall i, j :: 6 <= i < 14 && i < j < |WORDS| ==> WORDS[i] != WORDS[j]
  {
  }

  lemma LastWordsDiffer()
    ensures forall i, j :: 14 <= i < j < |WORDS| ==> WORDS[i] != WORDS[j]
  {
  }

  lemma WordsAreDistinct()
    ensures Distinct(WORDS)
  {
    FirstWordsDiffer();
    EarlyWordsDiffer();
    NextWordsDiffer();
    LastWordsDiffer();
  }

  lemma WordsAreVisible()
    ensures forall w :: w in WORDS ==> w != ""
  {
  }

  /** While fewer words were used than the list holds, the next one is new. */
  lemma FreshWhileAnyLeft(used: seq<string>, word: string)
    requires word in Candidates(used) && |used| < |WORDS|
    ensures word !in used
  {
    WordsAreDistinct();
    if Pool(WORDS, used) == [] {
      forall w | w in WORDS ensures w in used {
        assert w !in Pool(WORDS, used);
      }
      Pigeonhole(WORDS, used);
      assert false;
    }
  }
}
