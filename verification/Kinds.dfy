/**
 Reads and writes, by the words themselves: which bare words of a text decide
 what a connection may run.
 */
module Kinds {
  import opened Lexer
  import opened Statements

  predicate IsOpener(w: string) {
    w == "select" || w == "with" || w == "table" || w == "values" || w == "show" || w == "explain"
  }

  predicate IsWritingWord(w: string) {
    || w == "insert" || w == "update" || w == "delete" || w == "merge" || w == "truncate" || w == "drop"
    || w == "create" || w == "alter" || w == "grant" || w == "revoke" || w == "call" || w == "replace"
    || w == "rename" || w == "comment" || w == "vacuum" || w == "analyze" || w == "copy" || w == "into"
  }

  /** The word is `w` in capitals, small letters, or both. */
  predicate Spells(word: string, w: string) {
    && |word| == |w|
    && forall i :: 0 <= i < |w| ==> word[i] == w[i] || ('A' <= word[i] <= 'Z' && w[i] as int == word[i] as int + 32)
  }

  ghost predicate Opens(word: string) {
    exists w :: Spells(word, w) && IsOpener(w)
  }

  ghost predicate Changes(word: string) {
    exists w :: Spells(word, w) && IsWritingWord(w)
  }

  /**
   Among the bare words of these lexemes the first opens a read, and none behind
   it changes anything.
   */
  ghost predicate OnlyReads(l: seq<Lexeme>) {
    exists first :: 0 <= first < |l| && l[first].Word? && Opens(l[first].text)
      && (forall i :: 0 <= i < first ==> !l[i].Word?)
      && (forall i :: first < i < |l| && l[i].Word? ==> !Changes(l[i].text))
  }

  predicate IsSmall(w: string) {
    forall i :: 0 <= i < |w| ==> 'a' <= w[i] <= 'z'
  }

  lemma SmallIsLower(word: string, w: string)
    requires IsSmall(w)
    ensures Spells(word, w) <==> Lower(word) == w
  {
    if Spells(word, w) {
      forall i | 0 <= i < |w|
        ensures Lower(word)[i] == w[i]
      {
        LowerIs(word[i]);
      }
    }
    if Lower(word) == w {
      forall i | 0 <= i < |w|
        ensures word[i] == w[i] || ('A' <= word[i] <= 'Z' && w[i] as int == word[i] as int + 32)
      {
        LowerIs(word[i]);
        assert Lower(word)[i] == LowerUnit(word[i]);
      }
    }
  }

  lemma LowerIs(c: char)
    ensures 'A' <= c <= 'Z' ==> LowerUnit(c) as int == c as int + 32
    ensures !('A' <= c <= 'Z') ==> LowerUnit(c) == c
  {
  }

  lemma ListsAre(w: string)
    ensures w in READ_OPENERS <==> IsOpener(w)
    ensures w in WRITING_WORDS <==> IsWritingWord(w)
    ensures IsOpener(w) || IsWritingWord(w) ==> IsSmall(w)
  {
    hide *;
    OpenersAre(w);
    WritingWordsAre(w);
  }

  lemma OpenersAre(w: string)
    ensures w in READ_OPENERS <==> IsOpener(w)
    ensures IsOpener(w) ==> IsSmall(w)
  {
  }

  lemma WritingWordsAre(w: string)
    ensures w in WRITING_WORDS <==> IsWritingWord(w)
    ensures IsWritingWord(w) ==> IsSmall(w)
  {
    WritingWordsAreSmall(w);
    hide IsSmall;
  }

  lemma WritingWordsAreSmall(w: string)
    ensures IsWritingWord(w) ==> IsSmall(w)
  {
  }

  lemma ListedBySpelling(word: string)
    ensures Lower(word) in READ_OPENERS <==> Opens(word)
    ensures Lower(word) in WRITING_WORDS <==> Changes(word)
  {
    hide Lower, IsOpener, IsWritingWord, Spells;
    forall w | IsOpener(w) || IsWritingWord(w)
      ensures Spells(word, w) <==> Lower(word) == w
    {
      ListsAre(w);
      SmallIsLower(word, w);
    }
    ListsAre(Lower(word));
  }

  /** By the words in order. */
  ghost predicate WordsOnlyRead(words: seq<string>) {
    words != [] && Opens(words[0]) && forall i :: 1 <= i < |words| ==> !Changes(words[i])
  }

  lemma KindIsByWords(words: seq<string>)
    ensures KindOf(words) == Reads <==> WordsOnlyRead(words)
  {
    hide Lower, Opens, Changes;
    forall i | 0 <= i < |words|
      ensures Lower(words[i]) in READ_OPENERS <==> Opens(words[i])
      ensures Lower(words[i]) in WRITING_WORDS <==> Changes(words[i])
    {
      ListedBySpelling(words[i]);
    }
  }

  ghost predicate NoneChanges(l: seq<Lexeme>) {
    forall i :: 0 <= i < |l| && l[i].Word? ==> !Changes(l[i].text)
  }

  lemma {:induction false} NoWordChanges(l: seq<Lexeme>)
    ensures (forall i :: 0 <= i < |Words(l)| ==> !Changes(Words(l)[i])) <==> NoneChanges(l)
  {
    hide Changes;
    if l != [] {
      var more := Words(l[1..]);
      NoWordChanges(l[1..]);
      assert forall i :: 1 <= i < |l| ==> l[i] == l[1..][i - 1];
      assert forall i :: 0 <= i < |l[1..]| ==> l[1..][i] == l[i + 1];
      assert Words(l) == if l[0].Word? then [l[0].text] + more else more;
      assert NoneChanges(l) <==> (l[0].Word? ==> !Changes(l[0].text)) && NoneChanges(l[1..]);
      if l[0].Word? {
        NoneOfMore(l[0].text, more);
      }
    }
  }

  lemma NoneOfMore(word: string, more: seq<string>)
    ensures var all := [word] + more;
            (forall i :: 0 <= i < |all| ==> !Changes(all[i])) <==>
              !Changes(word) && forall i :: 0 <= i < |more| ==> !Changes(more[i])
  {
    hide Changes;
    var all := [word] + more;
    assert all[0] == word;
    assert forall i :: 0 <= i < |more| ==> all[i + 1] == more[i];
    assert forall i :: 1 <= i < |all| ==> all[i] == more[i - 1];
  }

  lemma {:induction false} OnlyReadsByWords(l: seq<Lexeme>)
    ensures WordsOnlyRead(Words(l)) <==> OnlyReads(l)
  {
    hide Opens, Changes;
    if l != [] {
      var rest := l[1..];
      assert forall i :: 1 <= i < |l| ==> l[i] == rest[i - 1];
      assert forall i :: 0 <= i < |rest| ==> rest[i] == l[i + 1];
      if l[0].Word? {
        NoWordChanges(rest);
        var more := Words(rest);
        assert Words(l) == [l[0].text] + more;
        assert forall i :: 0 <= i < |more| ==> Words(l)[i + 1] == more[i];
        assert forall i :: 1 <= i < |Words(l)| ==> Words(l)[i] == more[i - 1];
      } else {
        OnlyReadsByWords(rest);
        assert Words(l) == Words(rest);
        PastNoWord(l);
      }
    }
  }

  lemma PastNoWord(l: seq<Lexeme>)
    requires l != [] && !l[0].Word?
    ensures OnlyReads(l) <==> OnlyReads(l[1..])
  {
    hide Opens, Changes;
    var rest := l[1..];
    assert forall i :: 1 <= i < |l| ==> l[i] == rest[i - 1];
    assert forall i :: 0 <= i < |rest| ==> rest[i] == l[i + 1];
    if OnlyReads(l) {
      var first :| 0 <= first < |l| && l[first].Word? && Opens(l[first].text)
        && (forall i :: 0 <= i < first ==> !l[i].Word?)
        && (forall i :: first < i < |l| && l[i].Word? ==> !Changes(l[i].text));
      assert rest[first - 1].Word?;
    }
    if OnlyReads(rest) {
      var first :| 0 <= first < |rest| && rest[first].Word? && Opens(rest[first].text)
        && (forall i :: 0 <= i < first ==> !rest[i].Word?)
        && (forall i :: first < i < |rest| && rest[i].Word? ==> !Changes(rest[i].text));
      assert l[first + 1].Word?;
    }
  }

  /**
   A text reads if and only if its first bare word is one of the six openers, in
   any letter case, and no later bare word is one of the eighteen that change
   something. With no bare word at all it writes.
   */
  lemma ReadsExactlyWhen(text: string, e: Escaping)
    ensures KindOf(Words(Lex(text, e).lexemes)) == Reads <==> OnlyReads(Lex(text, e).lexemes)
  {
    hide Lex, Words, KindOf, OnlyReads, WordsOnlyRead;
    KindIsByWords(Words(Lex(text, e).lexemes));
    OnlyReadsByWords(Lex(text, e).lexemes);
  }

  /** So one such word anywhere behind another word is enough. */
  lemma AWritingWordWrites(text: string, e: Escaping, i: nat, j: nat, w: string)
    requires var l := Lex(text, e).lexemes;
             i < j < |l| && l[i].Word? && l[j].Word? && IsWritingWord(w) && Spells(l[j].text, w)
    ensures KindOf(Words(Lex(text, e).lexemes)) == Writes
  {
    hide Lex, Words, KindOf, IsWritingWord, Spells;
    ReadsExactlyWhen(text, e);
  }
}
