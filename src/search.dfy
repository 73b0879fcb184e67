/** `search.ts`: case-insensitive topic search. Every topic field that
    contains the trimmed, lower-cased query contributes a highlighted match
    and a weight to the topic's score; topics with a match are returned,
    highest score first, ties in topic order. */
module Search {

  // ---- Strings -----------------------------------------------------------

  /** `toLowerCase` on one character, over the ASCII letters. */
  function LowerChar(c: char): char
  {
    if 'A' <= c <= 'Z' then c - 'A' + 'a' else c
  }

  /** `toLowerCase`: a character-by-character map, so the length is kept. */
  function Lower(s: string): (r: string)
    ensures |r| == |s|
  {
    seq(|s|, i requires 0 <= i < |s| => LowerChar(s[i]))
  }

  /** Lower-casing twice is lower-casing once, and leaves no capital. */
  lemma LowerIdempotent(s: string)
    ensures Lower(Lower(s)) == Lower(s)
    ensures forall i :: 0 <= i < |s| ==> !('A' <= Lower(s)[i] <= 'Z')
  {
  }

  /** The white space `trim` removes: space, tab, line feed, vertical tab,
      form feed and carriage return. */
  predicate IsSpace(c: char)
  {
    c == ' ' || c == '\t' || c == '\n' || c == '\U{000B}' || c == '\U{000C}' || c == '\r'
  }

  /** Leading white space removed: what is left is a suffix that does not
      start with white space, and everything cut off was white space. */
  function TrimStart(s: string): (r: string)
    ensures |r| <= |s| && r == s[|s| - |r|..]
    ensures |r| > 0 ==> !IsSpace(r[0])
    ensures forall i :: 0 <= i < |s| - |r| ==> IsSpace(s[i])
  {
    if |s| > 0 && IsSpace(s[0]) then TrimStart(s[1..]) else s
  }

  /** Trailing white space removed, the mirror image of `TrimStart`. */
  function TrimEnd(s: string): (r: string)
    ensures |r| <= |s| && r == s[..|r|]
    ensures |r| > 0 ==> !IsSpace(r[|r| - 1])
    ensures forall i :: |r| <= i < |s| ==> IsSpace(s[i])
  {
    if |s| > 0 && IsSpace(s[|s| - 1]) then TrimEnd(s[..|s| - 1]) else s
  }

  /** `trim`. */
  function Trim(s: string): string
  {
    TrimEnd(TrimStart(s))
  }

  /** `trim` yields the empty string exactly for an all-white-space input. */
  lemma TrimEmpty(s: string)
    ensures Trim(s) == [] <==> forall i :: 0 <= i < |s| ==> IsSpace(s[i])
  {
    var t := TrimStart(s);
    if Trim(s) == [] {
      assert t == [];
    } else {
      var r := Trim(s);
      assert r[0] == t[0];
      assert s[|s| - |t|] == r[0];
    }
  }

  /** `!query.trim()`: the query is blank. */
  predicate Blank(query: string)
  {
    Trim(query) == []
  }

  /** The query the topics are matched against: `query.toLowerCase().trim()`. */
  function Normalized(query: string): string
  {
    Trim(Lower(query))
  }

  /** Lower-casing keeps white space and non-white space apart, so a query
      that is not blank never normalises to the empty string (which every
      text would contain). */
  lemma NormalizedNonEmpty(query: string)
    requires !Blank(query)
    ensures |Normalized(query)| > 0
  {
    TrimEmpty(query);
    var i :| 0 <= i < |query| && !IsSpace(query[i]);
    LowerSpace(query[i]);
    NotAllSpace(Lower(query), i);
  }

  /** Lower-casing maps white space to itself and nothing else to it. */
  lemma LowerSpace(c: char)
    ensures IsSpace(LowerChar(c)) <==> IsSpace(c)
  {
  }

  lemma NotAllSpace(s: string, i: nat)
    requires i < |s| && !IsSpace(s[i])
    ensures Trim(s) != []
  {
    TrimEmpty(s);
  }

  /** Queries that differ only in letter case search the same. */
  lemma NormalizedIgnoresCase(q1: string, q2: string)
    requires Lower(q1) == Lower(q2)
    ensures Normalized(q1) == Normalized(q2) && Blank(q1) == Blank(q2)
  {
    BlankIgnoresCase(q1);
    BlankIgnoresCase(q2);
  }

  /** A query is blank exactly when its lower-cased form is. */
  lemma BlankIgnoresCase(q: string)
    ensures Blank(Lower(q)) == Blank(q)
  {
    TrimEmpty(q);
    TrimEmpty(Lower(q));
    forall i | 0 <= i < |q| ensures IsSpace(q[i]) <==> IsSpace(Lower(q)[i]) {
      LowerSpace(q[i]);
    }
  }

  // ---- Substring search ----------------------------------------------------

  /** `q` occurs in `t` at position `i`. */
  predicate Occurs(t: string, q: string, i: int)
  {
    0 <= i && i + |q| <= |t| && t[i..i + |q|] == q
  }

  /** The first occurrence of `q` in `t` at or after `i`, or -1. */
  function IndexFrom(t: string, q: string, i: nat): (r: int)
    ensures r == -1 || (i <= r && r + |q| <= |t|)
    decreases |t| - i
  {
    if i + |q| > |t| then -1
    else if t[i..i + |q|] == q then i
    else IndexFrom(t, q, i + 1)
  }

  /** `indexOf`. */
  function IndexOf(t: string, q: string): (r: int)
    ensures r == -1 || (0 <= r && r + |q| <= |t|)
  {
    IndexFrom(t, q, 0)
  }

  lemma {:induction false} IndexFromFirst(t: string, q: string, i: nat)
    ensures var r := IndexFrom(t, q, i);
      (r == -1 || (i <= r && Occurs(t, q, r))) &&
      forall j :: i <= j && (r == -1 || j < r) ==> !Occurs(t, q, j)
    decreases |t| - i
  {
    if i + |q| <= |t| && t[i..i + |q|] != q {
      IndexFromFirst(t, q, i + 1);
    }
  }

  /** `indexOf` returns the leftmost occurrence, and -1 exactly when there
      is none. */
  lemma IndexOfFirst(t: string, q: string)
    ensures IndexOf(t, q) == -1 <==> forall j :: !Occurs(t, q, j)
    ensures IndexOf(t, q) != -1 ==>
      Occurs(t, q, IndexOf(t, q)) && forall j :: 0 <= j < IndexOf(t, q) ==> !Occurs(t, q, j)
  {
    IndexFromFirst(t, q, 0);
  }

  /** `text.toLowerCase().includes(q)`. */
  predicate Hit(text: string, q: string)
  {
    IndexOf(Lower(text), q) != -1
  }

  // ---- Highlighting --------------------------------------------------------

  const Open: string := "<mark class=\"bg-yellow-300 dark:bg-yellow-700\">"
  const Close: string := "</mark>"

  /** `highlight`: the leftmost case-insensitive occurrence of `query` in
      `text`, wrapped in the mark tags. */
  function Highlight(text: string, query: string): string
  {
    var index := IndexOf(Lower(text), Lower(query));
    if index == -1 then text
    else text[..index] + Open + text[index..index + |query|] + Close + text[index + |query|..]
  }

  /** A text comes back unchanged exactly when it does not contain the
      query, ignoring case. */
  lemma HighlightMiss(text: string, query: string)
    ensures Highlight(text, query) == text <==> forall j :: !Occurs(Lower(text), Lower(query), j)
  {
    IndexOfFirst(Lower(text), Lower(query));
    if IndexOf(Lower(text), Lower(query)) != -1 {
      assert |Highlight(text, query)| == |text| + |Open| + |Close|;
    }
  }

  /** Otherwise the text is cut at its leftmost case-insensitive occurrence
      of the query into before, match and after, the match is wrapped in
      the tags, and before, match and after make up the text. */
  lemma HighlightHit(text: string, query: string)
    ensures var i := IndexOf(Lower(text), Lower(query));
      i != -1 ==>
        0 <= i && i + |query| <= |text| &&
        Lower(text[i..i + |query|]) == Lower(query) &&
        (forall j :: 0 <= j < i ==> !Occurs(Lower(text), Lower(query), j)) &&
        Highlight(text, query) == text[..i] + Open + text[i..i + |query|] + Close + text[i + |query|..] &&
        text[..i] + text[i..i + |query|] + text[i + |query|..] == text
  {
    var lt, lq := Lower(text), Lower(query);
    IndexOfFirst(lt, lq);
    var i := IndexOf(lt, lq);
    if i != -1 {
      LowerSlice(text, i, i + |query|);
      Rejoin(text, i, i + |query|);
    }
  }

  lemma LowerSlice(s: string, i: nat, j: nat)
    requires i <= j <= |s|
    ensures Lower(s[i..j]) == Lower(s)[i..j]
  {
  }

  lemma Rejoin(s: string, i: nat, j: nat)
    requires i <= j <= |s|
    ensures s[..i] + s[i..j] + s[j..] == s
  {
    assert s[..i] + s[i..j] == s[..j];
  }

  // ---- Topics and matches --------------------------------------------------

  datatype Qa = Qa(question: string, answer: string)

  /** The fields of a topic the search looks at. */
  datatype Topic = Topic(id: string, title: string, tldr: string, steps: seq<string>, qa: seq<Qa>)

  /** A field label: `title`, `tldr`, `step-i`, `qa-q-i`, `qa-a-i`. */
  datatype Field = Title | Tldr | Step(index: nat) | Question(index: nat) | Answer(index: nat)

  datatype Match = Match(field: Field, highlighted: string)

  datatype SearchResult = SearchResult(topicId: string, matches: seq<Match>, score: int)

  /** The text a field label names in a topic, if the topic has it. */
  function FieldText(t: Topic, f: Field): string
    requires Names(t, f)
  {
    match f
    case Title => t.title
    case Tldr => t.tldr
    case Step(i) => t.steps[i]
    case Question(i) => t.qa[i].question
    case Answer(i) => t.qa[i].answer
  }

  predicate Names(t: Topic, f: Field)
  {
    match f
    case Step(i) => i < |t.steps|
    case Question(i) => i < |t.qa|
    case Answer(i) => i < |t.qa|
    case _ => true
  }

  /* The scan over a topic's fields is stated for any field test `hit`
     (does the field contain the query?) and any highlighter `mark`;
     `searchTopics` supplies `Includes(q)` and `Highlighter(q)`. */

  /** `[m]` when field `f`, holding `text`, contains the query, `[]`
      otherwise; the match carries the label and the highlighted text. */
  function MatchIf(f: Field, text: string, hit: string -> bool, mark: string -> string): seq<Match>
  {
    if hit(text) then [Match(f, mark(text))] else []
  }

  function Ind(b: bool): nat
  {
    if b then 1 else 0
  }

  /** The matches of the first `n` steps. */
  function StepMatches(t: Topic, hit: string -> bool, mark: string -> string, n: nat): seq<Match>
    requires n <= |t.steps|
  {
    if n == 0 then [] else StepMatches(t, hit, mark, n - 1) + MatchIf(Step(n - 1), t.steps[n - 1], hit, mark)
  }

  /** The matches of the first `n` question/answer pairs, question first. */
  function QaMatches(t: Topic, hit: string -> bool, mark: string -> string, n: nat): seq<Match>
    requires n <= |t.qa|
  {
    if n == 0 then [] else QaMatches(t, hit, mark, n - 1) + PairMatches(t, hit, mark, n - 1)
  }

  /** The matches of question/answer pair `i`, question first. */
  function PairMatches(t: Topic, hit: string -> bool, mark: string -> string, i: nat): seq<Match>
    requires i < |t.qa|
  {
    MatchIf(Question(i), t.qa[i].question, hit, mark) + MatchIf(Answer(i), t.qa[i].answer, hit, mark)
  }

  /** The number of the first `n` steps that contain the query. */
  function StepHits(t: Topic, hit: string -> bool, n: nat): nat
    requires n <= |t.steps|
  {
    if n == 0 then 0 else StepHits(t, hit, n - 1) + Ind(hit(t.steps[n - 1]))
  }

  function QuestionHits(t: Topic, hit: string -> bool, n: nat): nat
    requires n <= |t.qa|
  {
    if n == 0 then 0 else QuestionHits(t, hit, n - 1) + Ind(hit(t.qa[n - 1].question))
  }

  function AnswerHits(t: Topic, hit: string -> bool, n: nat): nat
    requires n <= |t.qa|
  {
    if n == 0 then 0 else AnswerHits(t, hit, n - 1) + Ind(hit(t.qa[n - 1].answer))
  }

  /** All matches of a topic, in the order the fields are checked. */
  function TopicMatches(t: Topic, hit: string -> bool, mark: string -> string): seq<Match>
  {
    MatchIf(Title, t.title, hit, mark) + MatchIf(Tldr, t.tldr, hit, mark)
      + StepMatches(t, hit, mark, |t.steps|) + QaMatches(t, hit, mark, |t.qa|)
  }

  /** The score: 10 for the title, 5 for the summary, 2 per step, 3 per
      question and 1 per answer that contains the query. */
  function Score(t: Topic, hit: string -> bool): int
  {
    10 * Ind(hit(t.title)) + 5 * Ind(hit(t.tldr))
      + 2 * StepHits(t, hit, |t.steps|) + 3 * QuestionHits(t, hit, |t.qa|) + AnswerHits(t, hit, |t.qa|)
  }

  /** The field checks for one topic: `matches` and `score` grow together. */
  method MatchTopic(t: Topic, hit: string -> bool, mark: string -> string) returns (matches: seq<Match>, score: int)
    ensures matches == TopicMatches(t, hit, mark) && score == Score(t, hit)
  {
    matches, score := [], 0;
    if hit(t.title) {
      matches := matches + [Match(Title, mark(t.title))];
      score := score + 10;
    }
    if hit(t.tldr) {
      matches := matches + [Match(Tldr, mark(t.tldr))];
      score := score + 5;
    }
    assert matches == MatchIf(Title, t.title, hit, mark) + MatchIf(Tldr, t.tldr, hit, mark);
    var stepMatches, stepScore := MatchSteps(t, hit, mark);
    var qaMatches, qaScore := MatchQa(t, hit, mark);
    matches := matches + stepMatches + qaMatches;
    score := score + stepScore + qaScore;
  }

  /** `topic.steps.forEach(...)`: 2 points per step with the query. */
  method MatchSteps(t: Topic, hit: string -> bool, mark: string -> string) returns (matches: seq<Match>, score: int)
    ensures matches == StepMatches(t, hit, mark, |t.steps|) && score == 2 * StepHits(t, hit, |t.steps|)
  {
    matches, score := [], 0;
    var i := 0;
    while i < |t.steps|
      invariant i <= |t.steps|
      invariant matches == StepMatches(t, hit, mark, i) && score == 2 * StepHits(t, hit, i)
    {
      if hit(t.steps[i]) {
        matches := matches + [Match(Step(i), mark(t.steps[i]))];
        score := score + 2;
      }
      i := i + 1;
    }
  }

  /** `topic.qa.forEach(...)`: 3 points per question and 1 per answer with
      the query. */
  method MatchQa(t: Topic, hit: string -> bool, mark: string -> string) returns (matches: seq<Match>, score: int)
    ensures matches == QaMatches(t, hit, mark, |t.qa|)
    ensures score == 3 * QuestionHits(t, hit, |t.qa|) + AnswerHits(t, hit, |t.qa|)
  {
    matches, score := [], 0;
    var i := 0;
    while i < |t.qa|
      invariant i <= |t.qa|
      invariant matches == QaMatches(t, hit, mark, i)
      invariant score == 3 * QuestionHits(t, hit, i) + AnswerHits(t, hit, i)
    {
      QaStep(t, hit, mark, i);
      var pair, gained := MatchPair(t, hit, mark, i);
      matches, score := matches + pair, score + gained;
      i := i + 1;
    }
  }

  /** The matches of question/answer pair `i` and the score they earn:
      three for the question, one for the answer. */
  method MatchPair(t: Topic, hit: string -> bool, mark: string -> string, i: nat) returns (pair: seq<Match>, gained: nat)
    requires i < |t.qa|
    ensures pair == PairMatches(t, hit, mark, i)
    ensures gained == 3 * Ind(hit(t.qa[i].question)) + Ind(hit(t.qa[i].answer))
  {
    pair, gained := [], 0;
    if hit(t.qa[i].question) {
      pair := [Match(Question(i), mark(t.qa[i].question))];
      gained := 3;
    }
    if hit(t.qa[i].answer) {
      pair := pair + [Match(Answer(i), mark(t.qa[i].answer))];
      gained := gained + 1;
    }
  }

  /** One more pair appends its matches and adds its hits. */
  lemma QaStep(t: Topic, hit: string -> bool, mark: string -> string, i: nat)
    requires i < |t.qa|
    ensures QaMatches(t, hit, mark, i + 1) == QaMatches(t, hit, mark, i) + PairMatches(t, hit, mark, i)
    ensures QuestionHits(t, hit, i + 1) == QuestionHits(t, hit, i) + Ind(hit(t.qa[i].question))
    ensures AnswerHits(t, hit, i + 1) == AnswerHits(t, hit, i) + Ind(hit(t.qa[i].answer))
  {
  }

  /** Every match names a field of the topic that contains the query and
      carries that field's highlighted text. */
  ghost predicate Sound(t: Topic, hit: string -> bool, mark: string -> string, ms: seq<Match>)
  {
    forall m :: m in ms ==> Genuine(t, hit, mark, m)
  }

  /** The match names a field of the topic that contains the query and
      carries that field's highlighted text. */
  predicate Genuine(t: Topic, hit: string -> bool, mark: string -> string, m: Match)
  {
    Names(t, m.field) && hit(FieldText(t, m.field)) && m.highlighted == mark(FieldText(t, m.field))
  }

  /** Every match of the first `n` steps is genuine. */
  lemma {:induction false} StepMatchesSound(t: Topic, hit: string -> bool, mark: string -> string, n: nat, m: Match)
    requires n <= |t.steps| && m in StepMatches(t, hit, mark, n)
    ensures Genuine(t, hit, mark, m)
    decreases n
  {
    assert n > 0;
    var prev, last := StepMatches(t, hit, mark, n - 1), MatchIf(Step(n - 1), t.steps[n - 1], hit, mark);
    assert StepMatches(t, hit, mark, n) == prev + last;
    if m in prev {
      StepMatchesSound(t, hit, mark, n - 1, m);
    } else {
      assert m in last;
    }
  }

  lemma {:induction false} StepMatchesCount(t: Topic, hit: string -> bool, mark: string -> string, n: nat)
    requires n <= |t.steps|
    ensures |StepMatches(t, hit, mark, n)| == StepHits(t, hit, n)
    decreases n
  {
    if n > 0 {
      StepMatchesCount(t, hit, mark, n - 1);
      assert |MatchIf(Step(n - 1), t.steps[n - 1], hit, mark)| == Ind(hit(t.steps[n - 1]));
    }
  }

  /** Every match of the first `n` question/answer pairs is genuine. */
  lemma {:induction false} QaMatchesSound(t: Topic, hit: string -> bool, mark: string -> string, n: nat, m: Match)
    requires n <= |t.qa| && m in QaMatches(t, hit, mark, n)
    ensures Genuine(t, hit, mark, m)
    decreases n
  {
    assert n > 0;
    var prev, pair := QaMatches(t, hit, mark, n - 1), PairMatches(t, hit, mark, n - 1);
    assert QaMatches(t, hit, mark, n) == prev + pair;
    if m in prev {
      QaMatchesSound(t, hit, mark, n - 1, m);
    } else {
      PairSound(t, hit, mark, n - 1, m);
    }
  }

  lemma PairSound(t: Topic, hit: string -> bool, mark: string -> string, i: nat, m: Match)
    requires i < |t.qa| && m in PairMatches(t, hit, mark, i)
    ensures Genuine(t, hit, mark, m)
  {
  }

  lemma {:induction false} QaMatchesCount(t: Topic, hit: string -> bool, mark: string -> string, n: nat)
    requires n <= |t.qa|
    ensures |QaMatches(t, hit, mark, n)| == QuestionHits(t, hit, n) + AnswerHits(t, hit, n)
    decreases n
  {
    if n > 0 {
      QaMatchesCount(t, hit, mark, n - 1);
      var i := n - 1;
      assert |PairMatches(t, hit, mark, i)| == Ind(hit(t.qa[i].question)) + Ind(hit(t.qa[i].answer));
    }
  }

  /** One match per field that contains the query, each genuine; so a
      topic scores above zero exactly when it has a match. */
  lemma TopicMatchesSpec(t: Topic, hit: string -> bool, mark: string -> string)
    ensures Sound(t, hit, mark, TopicMatches(t, hit, mark))
    ensures |TopicMatches(t, hit, mark)| == Ind(hit(t.title)) + Ind(hit(t.tldr))
      + StepHits(t, hit, |t.steps|) + QuestionHits(t, hit, |t.qa|) + AnswerHits(t, hit, |t.qa|)
    ensures Score(t, hit) > 0 <==> |TopicMatches(t, hit, mark)| > 0
  {
    TopicMatchesSound(t, hit, mark);
    StepMatchesCount(t, hit, mark, |t.steps|);
    QaMatchesCount(t, hit, mark, |t.qa|);
  }

  lemma TopicMatchesSound(t: Topic, hit: string -> bool, mark: string -> string)
    ensures Sound(t, hit, mark, TopicMatches(t, hit, mark))
  {
    var head := MatchIf(Title, t.title, hit, mark) + MatchIf(Tldr, t.tldr, hit, mark);
    var steps, qas := StepMatches(t, hit, mark, |t.steps|), QaMatches(t, hit, mark, |t.qa|);
    assert TopicMatches(t, hit, mark) == head + steps + qas;
    forall m | m in TopicMatches(t, hit, mark) ensures Genuine(t, hit, mark, m) {
      if m in steps {
        StepMatchesSound(t, hit, mark, |t.steps|, m);
      } else if m in qas {
        QaMatchesSound(t, hit, mark, |t.qa|, m);
      } else {
        assert m in head;
      }
    }
  }

  // ---- Ordering ------------------------------------------------------------

  /** Insert `r` into `s` after every entry scoring at least as much. */
  function Insert(s: seq<SearchResult>, r: SearchResult): seq<SearchResult>
  {
    if |s| == 0 || s[|s| - 1].score >= r.score then s + [r]
    else Insert(s[..|s| - 1], r) + [s[|s| - 1]]
  }

  /** `sort((a, b) => b.score - a.score)`: a stable sort by descending score. */
  function SortByScore(s: seq<SearchResult>): seq<SearchResult>
  {
    if |s| == 0 then [] else Insert(SortByScore(s[..|s| - 1]), s[|s| - 1])
  }

  predicate NonIncreasing(s: seq<SearchResult>)
  {
    forall i, j :: 0 <= i < j < |s| ==> s[i].score >= s[j].score
  }

  /** The entries of `s` with score `v`, in order. */
  function WithScore(s: seq<SearchResult>, v: int): seq<SearchResult>
  {
    if |s| == 0 then []
    else WithScore(s[..|s| - 1], v) + (if s[|s| - 1].score == v then [s[|s| - 1]] else [])
  }

  /** Inserting keeps the entries: the old ones and `r`. */
  lemma {:induction false} InsertPermutes(s: seq<SearchResult>, r: SearchResult)
    ensures multiset(Insert(s, r)) == multiset(s) + multiset{r}
    decreases |s|
  {
    if |s| > 0 && s[|s| - 1].score < r.score {
      var init, last := s[..|s| - 1], s[|s| - 1];
      assert s == init + [last];
      InsertPermutes(init, r);
    }
  }

  /** Inserting into a sequence ordered by descending score keeps it so. */
  lemma {:induction false} InsertSorted(s: seq<SearchResult>, r: SearchResult)
    requires NonIncreasing(s)
    ensures NonIncreasing(Insert(s, r))
    decreases |s|
  {
    if |s| > 0 && s[|s| - 1].score < r.score {
      var init, last := s[..|s| - 1], s[|s| - 1];
      InsertSorted(init, r);
      InsertPermutes(init, r);
      var u := Insert(init, r);
      forall i, j | 0 <= i < j < |u| + 1 ensures (u + [last])[i].score >= (u + [last])[j].score {
        if j == |u| {
          assert u[i] in multiset(init) + multiset{r};
          if u[i] != r {
            var k :| 0 <= k < |init| && init[k] == u[i];
          }
        }
      }
    }
  }

  /** Inserting `r` puts it after every entry of the same score, so the
      entries of each score keep their order. */
  lemma {:induction false} InsertStable(s: seq<SearchResult>, r: SearchResult, v: int)
    ensures WithScore(Insert(s, r), v) == WithScore(s, v) + (if r.score == v then [r] else [])
    decreases |s|
  {
    if |s| == 0 || s[|s| - 1].score >= r.score {
      assert (s + [r])[..|s|] == s;
    } else {
      var init, last := s[..|s| - 1], s[|s| - 1];
      InsertStable(init, r, v);
      var u := Insert(init, r);
      assert (u + [last])[..|u|] == u;
      assert s[..|s| - 1] == init;
    }
  }

  /** The sorted results are ordered by non-increasing score, hold the same
      entries, and keep the input order among equal scores. */
  lemma {:induction false} SortByScoreSpec(s: seq<SearchResult>)
    ensures NonIncreasing(SortByScore(s))
    ensures multiset(SortByScore(s)) == multiset(s)
    ensures forall v :: WithScore(SortByScore(s), v) == WithScore(s, v)
  {
    if |s| > 0 {
      var init, last := s[..|s| - 1], s[|s| - 1];
      assert s == init + [last];
      SortByScoreSpec(init);
      InsertSorted(SortByScore(init), last);
      InsertPermutes(SortByScore(init), last);
      forall v ensures WithScore(SortByScore(s), v) == WithScore(s, v) {
        InsertStable(SortByScore(init), last, v);
      }
    }
  }

  // ---- Search --------------------------------------------------------------

  /** The field test of `searchTopics`: `text.toLowerCase().includes(q)`. */
  function Includes(q: string): string -> bool
  {
    text => Hit(text, q)
  }

  /** The highlighter of `searchTopics`: `highlight(text, q)`. */
  function Highlighter(q: string): string -> string
  {
    text => Highlight(text, q)
  }

  /** The entry a topic contributes. */
  function ResultOf(t: Topic, hit: string -> bool, mark: string -> string): SearchResult
  {
    SearchResult(t.id, TopicMatches(t, hit, mark), Score(t, hit))
  }

  function EntryOf(hit: string -> bool, mark: string -> string): Topic -> SearchResult
  {
    t => ResultOf(t, hit, mark)
  }

  /** The entries of the first `n` topics, in topic order. */
  function Entries(topics: seq<Topic>, entry: Topic -> SearchResult, n: nat): (es: seq<SearchResult>)
    requires n <= |topics|
    ensures |es| == n
  {
    if n == 0 then [] else Entries(topics, entry, n - 1) + [entry(topics[n - 1])]
  }

  /** Entry `i` is the entry of topic `i`. */
  lemma {:induction false} EntriesAt(topics: seq<Topic>, entry: Topic -> SearchResult, n: nat, i: nat)
    requires i < n <= |topics|
    ensures Entries(topics, entry, n)[i] == entry(topics[i])
  {
    if i < n - 1 {
      EntriesAt(topics, entry, n - 1, i);
    }
  }

  /** `if (matches.length > 0) results.push(...)`: the entries with a match,
      in order. */
  function Kept(rs: seq<SearchResult>): seq<SearchResult>
  {
    if |rs| == 0 then []
    else Kept(rs[..|rs| - 1]) + (if |rs[|rs| - 1].matches| > 0 then [rs[|rs| - 1]] else [])
  }

  lemma KeptSnoc(rs: seq<SearchResult>, r: SearchResult)
    ensures Kept(rs + [r]) == Kept(rs) + (if |r.matches| > 0 then [r] else [])
  {
    assert (rs + [r])[..|rs|] == rs;
  }

  /** An entry is kept exactly when it is in the input with a match. */
  lemma {:induction false} KeptMembers(rs: seq<SearchResult>)
    ensures forall r :: r in Kept(rs) <==> exists i :: 0 <= i < |rs| && |rs[i].matches| > 0 && r == rs[i]
  {
    if |rs| > 0 {
      var init := rs[..|rs| - 1];
      KeptMembers(init);
      assert forall i :: 0 <= i < |init| ==> init[i] == rs[i];
    }
  }

  /** The collected entries: one per topic whose entry has a match, in
      topic order. */
  function Collect(topics: seq<Topic>, entry: Topic -> SearchResult): seq<SearchResult>
  {
    Kept(Entries(topics, entry, |topics|))
  }

  /** An entry is collected exactly when it is the entry of a topic and has
      a match. */
  lemma CollectMembers(topics: seq<Topic>, entry: Topic -> SearchResult)
    ensures forall r :: r in Collect(topics, entry) <==>
      exists i :: 0 <= i < |topics| && |entry(topics[i]).matches| > 0 && r == entry(topics[i])
  {
    var es := Entries(topics, entry, |topics|);
    KeptMembers(es);
    forall i | 0 <= i < |topics| ensures es[i] == entry(topics[i]) {
      EntriesAt(topics, entry, |topics|, i);
    }
  }

  /** There is one collected entry per topic whose entry has a match. */
  lemma CollectCount(topics: seq<Topic>, entry: Topic -> SearchResult)
    ensures |Collect(topics, entry)| == |set i: nat | i < |topics| && |entry(topics[i]).matches| > 0|
  {
    KeptEntriesCount(topics, entry, |topics|);
  }

  /** The positions among the first `n` topics whose entry has a match. */
  function Matched(topics: seq<Topic>, entry: Topic -> SearchResult, n: nat): set<nat>
    requires n <= |topics|
  {
    set i: nat | i < n && |entry(topics[i]).matches| > 0
  }

  lemma MatchedStep(topics: seq<Topic>, entry: Topic -> SearchResult, n: nat)
    requires 0 < n <= |topics|
    ensures Matched(topics, entry, n)
      == Matched(topics, entry, n - 1) + (if |entry(topics[n - 1]).matches| > 0 then {n - 1} else {})
    ensures n - 1 !in Matched(topics, entry, n - 1)
  {
  }

  lemma {:induction false} KeptEntriesCount(topics: seq<Topic>, entry: Topic -> SearchResult, n: nat)
    requires n <= |topics|
    ensures |Kept(Entries(topics, entry, n))| == |Matched(topics, entry, n)|
  {
    if n > 0 {
      KeptEntriesCount(topics, entry, n - 1);
      KeptSnoc(Entries(topics, entry, n - 1), entry(topics[n - 1]));
      MatchedStep(topics, entry, n);
      assert Entries(topics, entry, n) == Entries(topics, entry, n - 1) + [entry(topics[n - 1])];
      if |entry(topics[n - 1]).matches| > 0 {
        assert |Kept(Entries(topics, entry, n))| == |Kept(Entries(topics, entry, n - 1))| + 1;
        assert |Matched(topics, entry, n)| == |Matched(topics, entry, n - 1)| + 1;
      } else {
        assert Kept(Entries(topics, entry, n)) == Kept(Entries(topics, entry, n - 1));
        assert Matched(topics, entry, n) == Matched(topics, entry, n - 1);
      }
    }
  }

  /** The entry of a topic carries its id, its matches and its score. */
  lemma EntryOfSpec(hit: string -> bool, mark: string -> string, t: Topic)
    ensures EntryOf(hit, mark)(t) == SearchResult(t.id, TopicMatches(t, hit, mark), Score(t, hit))
  {
  }

  /** `searchTopics`: nothing for a blank query; otherwise the entries of
      the topics with a match, stably sorted by descending score. */
  method SearchTopics(query: string, topics: seq<Topic>) returns (results: seq<SearchResult>)
    ensures Blank(query) ==> results == []
    ensures !Blank(query) ==>
      var q := Normalized(query);
      results == SortByScore(Collect(topics, EntryOf(Includes(q), Highlighter(q))))
  {
    if Trim(query) == [] {
      return [];
    }
    var q := Trim(Lower(query));
    var hit, mark := Includes(q), Highlighter(q);
    results := [];
    var n := 0;
    while n < |topics|
      invariant n <= |topics|
      invariant results == Kept(Entries(topics, EntryOf(hit, mark), n))
    {
      var matches, score := MatchTopic(topics[n], hit, mark);
      KeptSnoc(Entries(topics, EntryOf(hit, mark), n), ResultOf(topics[n], hit, mark));
      if |matches| > 0 {
        results := results + [SearchResult(topics[n].id, matches, score)];
      }
      n := n + 1;
    }
    results := SortByScore(results);
  }
}
