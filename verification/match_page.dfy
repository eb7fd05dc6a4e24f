/**
 * The mentor search page: the free-text skill query, the tokeniser that turns it into
 * the `skills_wanted` list, and the page state updated by one search round trip.
 */
module Match {
  import opened Wrappers

  /** The query the page starts with. */
  const DefaultQuery: string := "React, Python"

  // ---------------------------------------------------------------------------
  // The tokeniser: q.split(',').map(s => s.trim()).filter(Boolean)
  // ---------------------------------------------------------------------------

  /**
   * The code points JavaScript's `String.prototype.trim` strips: the ECMAScript
   * WhiteSpace set (tab, vertical tab, form feed, space, no-break space, the
   * byte order mark and every Unicode "Zs" space) and the LineTerminator set
   * (line feed, carriage return, line and paragraph separators).
   */
  predicate IsTrimmable(c: char) {
    c == '\t' || c == '\n' || c == '\U{000B}' || c == '\U{000C}' || c == '\r' || c == ' '
    || c == '\U{00A0}' || c == '\U{1680}' || ('\U{2000}' <= c <= '\U{200A}')
    || c == '\U{2028}' || c == '\U{2029}' || c == '\U{202F}' || c == '\U{205F}'
    || c == '\U{3000}' || c == '\U{FEFF}'
  }

  /** Position of the first comma in `s`. */
  function FirstComma(s: string): (i: nat)
    requires ',' in s
    ensures i < |s| && s[i] == ','
    ensures ',' !in s[..i]
  {
    if s[0] == ',' then 0
    else
      assert ',' in s[1..] by { assert s == [s[0]] + s[1..]; }
      var i := 1 + FirstComma(s[1..]);
      assert s[..i] == [s[0]] + s[1..][..i - 1];
      i
  }

  /** `s.split(',')`: the pieces between commas, in order; "" splits into one empty piece. */
  function Split(s: string): (pieces: seq<string>)
    ensures |pieces| > 0
    ensures forall i :: 0 <= i < |pieces| ==> ',' !in pieces[i]
    decreases |s|
  {
    if ',' in s then
      var i := FirstComma(s);
      [s[..i]] + Split(s[i + 1..])
    else [s]
  }

  /** `pieces.join(',')`, the inverse of Split. */
  function Join(pieces: seq<string>): string
    requires |pieces| > 0
  {
    if |pieces| == 1 then pieces[0] else pieces[0] + "," + Join(pieces[1..])
  }

  /** Number of trimmable code points at the start of `s`. */
  function LeadingSpace(s: string): (n: nat)
    ensures n <= |s|
    ensures forall k :: 0 <= k < n ==> IsTrimmable(s[k])
    ensures n < |s| ==> !IsTrimmable(s[n])
  {
    if s == [] || !IsTrimmable(s[0]) then 0 else 1 + LeadingSpace(s[1..])
  }

  /** Number of trimmable code points at the end of `s`. */
  function TrailingSpace(s: string): (n: nat)
    ensures n <= |s|
    ensures forall k :: |s| - n <= k < |s| ==> IsTrimmable(s[k])
    ensures n < |s| ==> !IsTrimmable(s[|s| - 1 - n])
  {
    if s == [] || !IsTrimmable(s[|s| - 1]) then 0 else 1 + TrailingSpace(s[..|s| - 1])
  }

  /**
   * `s.trim()`. The result is the slice of `s` that starts at its first and ends at its
   * last non-trimmable code point; everything outside that slice is trimmable, and the
   * result neither starts nor ends with a trimmable code point. These three facts
   * determine the result (TrimUnique).
   */
  function Trim(s: string): (t: string)
    ensures t == [] || (!IsTrimmable(t[0]) && !IsTrimmable(t[|t| - 1]))
    ensures LeadingSpace(s) + |t| <= |s| && t == s[LeadingSpace(s)..LeadingSpace(s) + |t|]
    ensures forall k :: 0 <= k < |s| && !(LeadingSpace(s) <= k < LeadingSpace(s) + |t|) ==> IsTrimmable(s[k])
  {
    var lead := LeadingSpace(s);
    var rest := s[lead..];
    var trail := TrailingSpace(rest);
    assert rest != [] ==> trail < |rest| by {
      if rest != [] { assert rest[0] == s[lead]; }
    }
    assert forall k :: lead + |rest| - trail <= k < |s| ==> IsTrimmable(s[k]) by {
      forall k | lead + |rest| - trail <= k < |s| ensures IsTrimmable(s[k]) {
        assert s[k] == rest[k - lead];
      }
    }
    rest[..|rest| - trail]
  }

  /** `.map(s => s.trim())`: one trimmed piece per piece, in the same positions. */
  function TrimEach(pieces: seq<string>): (trimmed: seq<string>)
    ensures |trimmed| == |pieces|
    ensures forall i :: 0 <= i < |pieces| ==> trimmed[i] == Trim(pieces[i])
    ensures forall i :: 0 <= i < |trimmed| && trimmed[i] != "" ==>
      !IsTrimmable(trimmed[i][0]) && !IsTrimmable(trimmed[i][|trimmed[i]| - 1])
  {
    seq(|pieces|, i requires 0 <= i < |pieces| => Trim(pieces[i]))
  }

  /**
   * `.filter(Boolean)` on strings: keeps the non-empty ones, each as often as it occurs.
   * Order is kept too: see DropEmptyAppend and DropEmptySingle.
   */
  function DropEmpty(pieces: seq<string>): (kept: seq<string>)
    ensures forall t :: t in kept <==> t in pieces && t != ""
    ensures forall t :: t != "" ==> multiset(kept)[t] == multiset(pieces)[t]
    ensures |kept| <= |pieces|
  {
    if pieces == [] then []
    else
      assert pieces == [pieces[0]] + pieces[1..];
      if pieces[0] == "" then DropEmpty(pieces[1..])
      else [pieces[0]] + DropEmpty(pieces[1..])
  }

  /** The `skills` list the page derives from the query `q`: no more tokens than pieces, none empty. */
  function Skills(q: string): (skills: seq<string>)
    ensures |skills| <= |Split(q)|
    ensures forall t :: t in skills ==> t != ""
  {
    DropEmpty(TrimEach(Split(q)))
  }

  /** What every skill token looks like: non-empty, trimmed on both sides, comma-free. */
  predicate IsToken(t: string) {
    t != "" && !IsTrimmable(t[0]) && !IsTrimmable(t[|t| - 1]) && ',' !in t
  }

  // ---------------------------------------------------------------------------
  // Properties of the tokeniser
  // ---------------------------------------------------------------------------

  /** Splitting on commas loses nothing: joining the pieces back gives the query. */
  lemma {:induction false} JoinSplit(s: string)
    ensures Join(Split(s)) == s
    decreases |s|
  {
    if ',' in s {
      var i := FirstComma(s);
      JoinSplit(s[i + 1..]);
      assert Split(s)[1..] == Split(s[i + 1..]);
      assert s == s[..i] + "," + s[i + 1..];
    }
  }

  /** A comma-free string is a single piece. */
  lemma SplitWithoutComma(p: string)
    requires ',' !in p
    ensures Split(p) == [p]
  {
  }

  /** Splitting distributes over a comma: the pieces of `a,b` are those of `a` then those of `b`. */
  lemma {:induction false} SplitAtComma(a: string, b: string)
    ensures Split(a + "," + b) == Split(a) + Split(b)
    decreases |a|
  {
    var s := a + "," + b;
    assert s[|a|] == ',';
    if ',' in a {
      var i := FirstComma(a);
      assert s[..i] == a[..i];
      assert FirstComma(s) == i by { FirstCommaUnique(s, i); }
      assert s[i + 1..] == a[i + 1..] + "," + b;
      SplitAtComma(a[i + 1..], b);
    } else {
      assert s[..|a|] == a;
      assert FirstComma(s) == |a| by { FirstCommaUnique(s, |a|); }
      assert s[|a| + 1..] == b;
    }
  }

  /** Any comma with none before it is the first comma. */
  lemma FirstCommaUnique(s: string, i: nat)
    requires i < |s| && s[i] == ',' && ',' !in s[..i]
    ensures FirstComma(s) == i
  {
    var j := FirstComma(s);
    forall k | 0 <= k < i ensures s[k] != ',' { assert s[k] == s[..i][k]; }
    forall k | 0 <= k < j ensures s[k] != ',' { assert s[k] == s[..j][k]; }
  }

  /** Split inverts Join on comma-free pieces. */
  lemma {:induction false} SplitJoin(pieces: seq<string>)
    requires |pieces| > 0
    requires forall i :: 0 <= i < |pieces| ==> ',' !in pieces[i]
    ensures Split(Join(pieces)) == pieces
    decreases |pieces|
  {
    if |pieces| == 1 {
      SplitWithoutComma(pieces[0]);
    } else {
      SplitWithoutComma(pieces[0]);
      SplitJoin(pieces[1..]);
      SplitAtComma(pieces[0], Join(pieces[1..]));
      assert pieces == [pieces[0]] + pieces[1..];
    }
  }

  /** The three facts Trim ensures leave no choice: any string with them is Trim(s). */
  lemma TrimUnique(s: string, i: nat, t: string)
    requires i + |t| <= |s| && t == s[i..i + |t|]
    requires t == [] || (!IsTrimmable(t[0]) && !IsTrimmable(t[|t| - 1]))
    requires forall k :: 0 <= k < |s| && !(i <= k < i + |t|) ==> IsTrimmable(s[k])
    ensures t == Trim(s)
  {
    var lead, r := LeadingSpace(s), Trim(s);
    if t == [] {
      // s is all trimmable, so its first non-trimmable position is past the end
      assert lead == |s|;
    } else {
      assert s[i] == t[0];
      assert lead == i;
      assert r != [] by { assert r == s[lead..lead + |r|]; }
      assert s[i + |t| - 1] == t[|t| - 1];
      assert s[i + |r| - 1] == r[|r| - 1];
    }
  }

  /** Trimming an already-trimmed string changes nothing; in particular trim is idempotent. */
  lemma TrimTrimmed(s: string)
    requires s == [] || (!IsTrimmable(s[0]) && !IsTrimmable(s[|s| - 1]))
    ensures Trim(s) == s
  {
    assert s == s[0..0 + |s|];
    TrimUnique(s, 0, s);
  }

  /** Trim removes code points but never adds one: its result keeps the commas out. */
  lemma TrimKeepsCommasOut(s: string)
    requires ',' !in s
    ensures ',' !in Trim(s)
  {
    var lead, t := LeadingSpace(s), Trim(s);
    forall k | 0 <= k < |t| ensures t[k] != ',' {
      assert t[k] == s[lead + k] && s[lead + k] in s;
    }
  }

  lemma {:induction false} DropEmptyAppend(a: seq<string>, b: seq<string>)
    ensures DropEmpty(a + b) == DropEmpty(a) + DropEmpty(b)
    decreases |a|
  {
    if a != [] {
      assert (a + b)[1..] == a[1..] + b;
      DropEmptyAppend(a[1..], b);
    } else {
      assert a + b == b;
    }
  }

  /** A single string survives `.filter(Boolean)` exactly when it is non-empty. */
  lemma DropEmptySingle(p: string)
    ensures DropEmpty([p]) == if p == "" then [] else [p]
  {
    assert [p][1..] == [];
  }

  lemma TrimEachAppend(a: seq<string>, b: seq<string>)
    ensures TrimEach(a + b) == TrimEach(a) + TrimEach(b)
  {
    var l, r := TrimEach(a + b), TrimEach(a) + TrimEach(b);
    assert |l| == |r|;
    forall i | 0 <= i < |l| ensures l[i] == r[i] {
      if i < |a| { assert (a + b)[i] == a[i]; } else { assert (a + b)[i] == b[i - |a|]; }
    }
  }

  /** Every token is non-empty, has no surrounding whitespace and holds no comma. */
  lemma TokensWellFormed(q: string)
    ensures forall i :: 0 <= i < |Skills(q)| ==> IsToken(Skills(q)[i])
  {
    var pieces := Split(q);
    var trimmed := TrimEach(pieces);
    forall j | 0 <= j < |trimmed| ensures ',' !in trimmed[j] {
      TrimKeepsCommasOut(pieces[j]);
    }
    var kept := DropEmpty(trimmed);
    forall i | 0 <= i < |kept| ensures IsToken(kept[i]) {
      assert kept[i] in trimmed;
    }
  }

  /**
   * The tokens of `a,b` are the tokens of `a` followed by the tokens of `b`: tokens keep
   * the order of the pieces they come from.
   */
  lemma SkillsAtComma(a: string, b: string)
    ensures Skills(a + "," + b) == Skills(a) + Skills(b)
  {
    SplitAtComma(a, b);
    TrimEachAppend(Split(a), Split(b));
    DropEmptyAppend(TrimEach(Split(a)), TrimEach(Split(b)));
  }

  /** A comma-free piece gives its trimmed text as one token, or nothing when that is empty. */
  lemma SkillsOfPiece(p: string)
    requires ',' !in p
    ensures Skills(p) == if Trim(p) == "" then [] else [Trim(p)]
  {
    SplitWithoutComma(p);
    assert TrimEach([p]) == [Trim(p)];
  }

  /** A comma-free piece that is a single word (no surrounding whitespace) is one token. */
  lemma WordPiece(w: string)
    requires IsToken(w)
    ensures Skills(w) == [w]
  {
    SkillsOfPiece(w);
    TrimTrimmed(w);
  }

  /** A comma-free piece that is whitespace alone (or nothing) gives no token. */
  lemma BlankPiece(p: string)
    requires forall k :: 0 <= k < |p| ==> IsTrimmable(p[k])
    ensures Skills(p) == []
  {
    assert ',' !in p by {
      forall k | 0 <= k < |p| ensures p[k] != ',' { assert IsTrimmable(p[k]); }
    }
    SkillsOfPiece(p);
    TrimUnique(p, 0, "");
  }

  /** A word after one space is that word as a single token. */
  lemma PaddedWord(w: string)
    requires IsToken(w)
    ensures Skills(" " + w) == [w]
  {
    var p := " " + w;
    assert ',' !in p by {
      forall k | 0 <= k < |p| ensures p[k] != ',' {
        if k > 0 { assert p[k] == w[k - 1]; }
      }
    }
    SkillsOfPiece(p);
    assert p[1..1 + |w|] == w;
    TrimUnique(p, 1, w);
  }

  /** Two words separated by a comma and a space are two tokens, in order. */
  lemma TwoWords(a: string, b: string)
    requires IsToken(a) && IsToken(b)
    ensures Skills(a + "," + " " + b) == [a, b]
  {
    assert a + "," + " " + b == a + "," + (" " + b);
    SkillsAtComma(a, " " + b);
    WordPiece(a);
    PaddedWord(b);
  }

  /** Blank pieces before a word and the empty piece after a trailing comma give nothing. */
  lemma BlanksAroundWord(b1: string, b2: string, w: string)
    requires forall k :: 0 <= k < |b1| ==> IsTrimmable(b1[k])
    requires forall k :: 0 <= k < |b2| ==> IsTrimmable(b2[k])
    requires IsToken(w)
    ensures Skills(b1 + "," + b2 + "," + w + ",") == [w]
  {
    var tail := w + "," + "";
    assert Skills(tail) == [w] by {
      SkillsAtComma(w, "");
      WordPiece(w);
      BlankPiece("");
    }
    assert Skills(b2 + "," + tail) == [w] by {
      SkillsAtComma(b2, tail);
      BlankPiece(b2);
    }
    assert b1 + "," + b2 + "," + w + "," == b1 + "," + (b2 + "," + tail);
    SkillsAtComma(b1, b2 + "," + tail);
    BlankPiece(b1);
  }

  /** The page's default query asks for React and Python. */
  lemma DefaultQuerySkills()
    ensures Skills(DefaultQuery) == ["React", "Python"]
  {
    assert DefaultQuery == "React" + "," + " " + "Python";
    TwoWords("React", "Python");
  }

  /** Empty and blank pieces vanish: " , ,Node.js," asks for Node.js alone. */
  lemma BlankPiecesDropped()
    ensures Skills(" , ,Node.js,") == ["Node.js"]
  {
    assert " , ,Node.js," == " " + "," + " " + "," + "Node.js" + ",";
    BlanksAroundWord(" ", " ", "Node.js");
  }

  // ---------------------------------------------------------------------------
  // One search round trip
  // ---------------------------------------------------------------------------

  /** One entry of the `results` list, with the fields the page renders. */
  datatype Mentor = Mentor(id: string, name: string, skillsTeach: seq<string>, overlap: seq<string>)

  /**
   * How the request ended: `fetch` and `res.json()` both resolved, with `data.results`
   * absent or falsy (None) or present; or one of them threw (or `data` was null).
   */
  datatype SearchOutcome = Responded(results: Option<seq<Mentor>>) | Threw

  /**
   * The `results` state after a search that ended with `outcome`: a failure shows the old
   * results, a response shows only mentors that it returned.
   */
  function ResultsAfter(previous: seq<Mentor>, outcome: SearchOutcome): (shown: seq<Mentor>)
    ensures outcome.Threw? ==> shown == previous
    ensures outcome.Responded? ==> forall m :: m in shown ==> outcome.results.Some? && m in outcome.results.value
  {
    match outcome
    case Responded(Some(found)) => found
    case Responded(None) => []
    case Threw => previous
  }

  /** A response always replaces the results; its missing `results` field means none. */
  lemma ResponseReplacesResults(previous: seq<Mentor>, found: Option<seq<Mentor>>)
    ensures ResultsAfter(previous, Responded(found)) == (if found.Some? then found.value else [])
  {
  }

  /** A thrown request or decoding error leaves the results on screen. */
  lemma FailureKeepsResults(previous: seq<Mentor>)
    ensures ResultsAfter(previous, Threw) == previous
  {
  }

  /** The page's state: the query text, the results shown and the busy flag. */
  class MatchPage {
    var query: string
    var results: seq<Mentor>
    var loading: bool

    constructor ()
      ensures query == DefaultQuery && results == [] && !loading
    {
      query := DefaultQuery;
      results := [];
      loading := false;
    }

    /** The input's change handler replaces the query text. */
    method EditQuery(text: string)
      modifies this`query
      ensures query == text
    {
      query := text;
    }

    /**
     * The synchronous start of `search`, up to the `await`: the busy flag goes up and the
     * request is sent with the current tokens as `skills_wanted`.
     */
    method StartSearch() returns (skillsWanted: seq<string>)
      modifies this`loading
      ensures loading
      ensures skillsWanted == Skills(query)
      ensures forall i :: 0 <= i < |skillsWanted| ==> IsToken(skillsWanted[i])
    {
      loading := true;
      skillsWanted := Skills(query);
      TokensWellFormed(query);
    }

    /** The rest of `search`, once the request has ended: results updated, busy flag down. */
    method SettleSearch(outcome: SearchOutcome)
      modifies this`results, this`loading
      ensures !loading
      ensures results == ResultsAfter(old(results), outcome)
    {
      match outcome {
        case Responded(found) =>
          results := if found.Some? then found.value else [];
        case Threw =>
      }
      loading := false;
    }
  }
}
