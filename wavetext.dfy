/**
 * The wave-composition text of editor.js: String.prototype.trim, split(','), Array.join(',')
 * and the saveWave chain `txt.split(',').map(s => s.trim()).filter(Boolean)`.
 */
module WaveText {

  /** What String.prototype.trim strips: the ECMAScript WhiteSpace and LineTerminator characters. */
  predicate IsSpace(c: char): (space: bool)
    ensures space ==> c != ','
  {
    || c == '\t' || c == '\n' || c == '\U{B}' || c == '\U{C}' || c == '\r' || c == ' '
    || c == '\U{A0}' || c == '\U{1680}' || ('\U{2000}' <= c <= '\U{200A}')
    || c == '\U{2028}' || c == '\U{2029}' || c == '\U{202F}' || c == '\U{205F}' || c == '\U{3000}' || c == '\U{FEFF}'
  }

  /** Every character is white space: the texts that trim to "". */
  predicate Blank(s: string)
  {
    forall i | 0 <= i < |s| :: IsSpace(s[i])
  }

  /** The leading white space removed. */
  function TrimStart(s: string): (r: string)
    ensures |r| <= |s| && r == s[|s| - |r|..]
    ensures r == [] || !IsSpace(r[0])
    ensures r == [] <==> Blank(s)
  {
    if s == [] || !IsSpace(s[0]) then s else TrimStart(s[1..])
  }

  /** The trailing white space removed. */
  function TrimEnd(s: string): (r: string)
    ensures |r| <= |s| && r == s[..|r|]
    ensures r == [] || !IsSpace(r[|r| - 1])
    ensures r == [] <==> Blank(s)
  {
    if s == [] || !IsSpace(s[|s| - 1]) then s else TrimEnd(s[..|s| - 1])
  }

  /** String.prototype.trim: the piece of s that starts at TrimOffset(s), without white space at either end. */
  function Trim(s: string): (r: string)
    ensures Trimmed(r)
    ensures r == [] <==> Blank(s)
    ensures TrimOffset(s) + |r| <= |s| && r == s[TrimOffset(s)..TrimOffset(s) + |r|]
  {
    var a := TrimStart(s);
    var r := TrimEnd(a);
    assert r != [] ==> r[0] == a[0];
    r
  }

  /** How much leading white space trim drops. */
  function TrimOffset(s: string): nat
  {
    |s| - |TrimStart(s)|
  }

  /** A text without white space at either end. */
  predicate Trimmed(s: string)
  {
    s == [] || (!IsSpace(s[0]) && !IsSpace(s[|s| - 1]))
  }

  /** Trim never introduces a character: one absent from s is absent from Trim(s). */
  lemma TrimKeepsOut(s: string, c: char)
    requires c !in s
    ensures c !in Trim(s)
  {
    var r, m := Trim(s), TrimOffset(s);
    forall q | 0 <= q < |r| ensures r[q] != c {
      assert r[q] == s[m + q];
    }
  }

  /** Trimming a text with no white space at either end gives it back, so trim is idempotent. */
  lemma TrimTrimmed(s: string)
    requires Trimmed(s)
    ensures Trim(s) == s
  {
  }

  /** Array.prototype.join(sep) on strings. */
  function Join(ws: seq<string>, sep: char): (r: string)
    ensures ws != [] ==> ws[0] <= r
  {
    if ws == [] then [] else if |ws| == 1 then ws[0] else ws[0] + [sep] + Join(ws[1..], sep)
  }

  /** Joining n separator-free pieces puts exactly n - 1 separators into the text. */
  lemma {:induction false} JoinSeparators(ws: seq<string>, sep: char)
    requires ws != [] && forall k | 0 <= k < |ws| :: sep !in ws[k]
    ensures multiset(Join(ws, sep))[sep] == |ws| - 1
  {
    if |ws| > 1 {
      assert forall k | 0 <= k < |ws| - 1 :: ws[1..][k] == ws[k + 1];
      JoinSeparators(ws[1..], sep);
      assert multiset(ws[0])[sep] == 0;
      assert Join(ws, sep) == ws[0] + [sep] + Join(ws[1..], sep);
    }
  }

  /** The position of the first `sep` in s, or |s| when there is none. */
  function FirstIndex(s: string, sep: char): (i: nat)
    ensures i <= |s| && sep !in s[..i]
    ensures i < |s| ==> s[i] == sep
  {
    if s == [] || s[0] == sep then 0
    else
      var j := FirstIndex(s[1..], sep);
      assert s[..j + 1] == [s[0]] + s[1..][..j];
      j + 1
  }

  /**
   * String.prototype.split(sep) for a one-character separator: the pieces between the
   * separators, one more than there are separators, and [""] for the empty text.
   */
  function Split(s: string, sep: char): (ps: seq<string>)
    ensures |ps| >= 1
    ensures forall k | 0 <= k < |ps| :: sep !in ps[k]
    ensures Join(ps, sep) == s
    decreases |s|
  {
    var i := FirstIndex(s, sep);
    if i == |s| then
      assert s[..i] == s;
      [s]
    else
      var rest := Split(s[i + 1..], sep);
      assert s == s[..i] + [sep] + s[i + 1..];
      [s[..i]] + rest
  }

  /** Splitting a join of separator-free pieces gives the pieces back: the other half of the round trip. */
  lemma {:induction false} SplitJoin(ws: seq<string>, sep: char)
    requires |ws| >= 1 && forall k | 0 <= k < |ws| :: sep !in ws[k]
    ensures Split(Join(ws, sep), sep) == ws
    decreases |ws|
  {
    var s := Join(ws, sep);
    var w := ws[0];
    if |ws| == 1 {
      assert FirstIndex(w, sep) == |w| by { NoSepIndex(w, sep); }
    } else {
      assert s == w + [sep] + Join(ws[1..], sep);
      var i := FirstIndex(s, sep);
      assert i == |w| by { SepIndexAfter(w, Join(ws[1..], sep), sep); }
      assert s[..i] == w && s[i + 1..] == Join(ws[1..], sep);
      SplitJoin(ws[1..], sep);
    }
  }

  lemma {:induction false} NoSepIndex(w: string, sep: char)
    requires sep !in w
    ensures FirstIndex(w, sep) == |w|
  {
    if w != [] {
      assert w[0] != sep;
      assert sep !in w[1..] by { assert forall k | 0 <= k < |w| - 1 :: w[1..][k] == w[k + 1]; }
      NoSepIndex(w[1..], sep);
    }
  }

  lemma {:induction false} SepIndexAfter(w: string, tail: string, sep: char)
    requires sep !in w
    ensures FirstIndex(w + [sep] + tail, sep) == |w|
  {
    var s := w + [sep] + tail;
    if w != [] {
      assert s[0] == w[0] != sep;
      assert s[1..] == w[1..] + [sep] + tail;
      assert sep !in w[1..] by { assert forall k | 0 <= k < |w| - 1 :: w[1..][k] == w[k + 1]; }
      SepIndexAfter(w[1..], tail, sep);
    }
  }

  /** `.map(s => s.trim())`. */
  function TrimAll(ps: seq<string>): (r: seq<string>)
    ensures |r| == |ps| && forall k | 0 <= k < |ps| :: r[k] == Trim(ps[k])
  {
    seq(|ps|, k requires 0 <= k < |ps| => Trim(ps[k]))
  }

  /** `.filter(Boolean)` on strings: the non-empty ones, in order. */
  function NonEmpty(ps: seq<string>): (r: seq<string>)
    ensures |r| <= |ps|
    ensures forall k | 0 <= k < |r| :: r[k] != [] && r[k] in ps
    ensures (forall k | 0 <= k < |ps| :: ps[k] != []) ==> r == ps
    ensures forall k | 0 <= k < |ps| && ps[k] != [] :: ps[k] in r
  {
    if ps == [] then []
    else
      var rest := NonEmpty(ps[1..]);
      if ps[0] == [] then rest else [ps[0]] + rest
  }

  /** The saved wave for the text in the preview box: `txt.split(',').map(s => s.trim()).filter(Boolean)` on the trimmed text. */
  function Tokens(text: string): (ws: seq<string>)
    ensures forall k | 0 <= k < |ws| :: ws[k] != []
    ensures Blank(text) ==> ws == []
  {
    NonEmpty(TrimAll(Split(Trim(text), ',')))
  }

  /** A token saveWave can produce: non-empty, without a comma, no white space at either end. */
  predicate CleanToken(w: string)
  {
    w != [] && ',' !in w && Trimmed(w)
  }

  /** Every token of a saved wave is clean. */
  lemma TokensAreClean(text: string)
    ensures forall k | 0 <= k < |Tokens(text)| :: CleanToken(Tokens(text)[k])
  {
    TokensCommaFree(text);
    TokensTrimmed(text);
  }

  /** No token holds a comma: each one is trimmed from a piece between commas. */
  lemma TokensCommaFree(text: string)
    ensures forall k | 0 <= k < |Tokens(text)| :: ',' !in Tokens(text)[k]
  {
    var ps := Split(Trim(text), ',');
    var ts := TrimAll(ps);
    forall w | w in ts ensures ',' !in w {
      var j :| 0 <= j < |ps| && ts[j] == w;
      TrimKeepsOut(ps[j], ',');
    }
  }

  /** No token has white space at either end. */
  lemma TokensTrimmed(text: string)
    ensures forall k | 0 <= k < |Tokens(text)| :: Trimmed(Tokens(text)[k])
  {
    var ps := Split(Trim(text), ',');
    var ts := TrimAll(ps);
    forall w | w in ts ensures Trimmed(w) {
      var j :| 0 <= j < |ps| && ts[j] == w;
    }
  }

  /**
   * The round trip of the wave builder: saving the preview that addToWave wrote, the joined
   * wave, gives back exactly the wave when its tokens are clean.
   */
  lemma TokensOfJoin(ws: seq<string>)
    requires forall k | 0 <= k < |ws| :: CleanToken(ws[k])
    ensures Tokens(Join(ws, ',')) == ws
  {
    var s := Join(ws, ',');
    if ws == [] {
      assert Trim(s) == [];
      assert Split([], ',') == [[]] by { assert FirstIndex([], ',') == 0; }
      assert TrimAll([[]]) == [[]];
      var ps: seq<string> := [[]];
      assert NonEmpty(ps) == [] by { assert ps[1..] == []; }
    } else {
      JoinTrimmed(ws);
      TrimTrimmed(s);
      SplitJoin(ws, ',');
      TrimAllTrimmed(ws);
      assert TrimAll(Split(Trim(s), ',')) == ws;
      assert NonEmpty(ws) == ws;
    }
  }

  /** A join of clean tokens has no white space at either end. */
  lemma JoinTrimmed(ws: seq<string>)
    requires |ws| >= 1 && forall k | 0 <= k < |ws| :: CleanToken(ws[k])
    ensures Trimmed(Join(ws, ','))
  {
    JoinEnds(ws, ',');
    assert CleanToken(ws[0]) && CleanToken(ws[|ws| - 1]);
  }

  /** Trimming pieces that are already trimmed changes nothing. */
  lemma TrimAllTrimmed(ps: seq<string>)
    requires forall k | 0 <= k < |ps| :: CleanToken(ps[k])
    ensures TrimAll(ps) == ps
  {
    forall k | 0 <= k < |ps| ensures TrimAll(ps)[k] == ps[k] {
      TrimTrimmed(ps[k]);
    }
  }

  /** A join of clean tokens starts with the first token's first character and ends with the last token's last. */
  lemma {:induction false} JoinEnds(ws: seq<string>, sep: char)
    requires |ws| >= 1 && forall k | 0 <= k < |ws| :: ws[k] != []
    ensures |Join(ws, sep)| >= |ws[0]|
    ensures Join(ws, sep)[0] == ws[0][0]
    ensures Join(ws, sep)[|Join(ws, sep)| - 1] == ws[|ws| - 1][|ws[|ws| - 1]| - 1]
    decreases |ws|
  {
    if |ws| > 1 {
      JoinEnds(ws[1..], sep);
    }
  }

  /** Every character is a comma or white space. */
  predicate NoContent(s: string)
  {
    forall i | 0 <= i < |s| :: s[i] == ',' || IsSpace(s[i])
  }

  /** A text made only of commas and white space is saved as an empty wave. */
  lemma NoContentNoTokens(text: string)
    requires NoContent(text)
    ensures Tokens(text) == []
  {
    var t := Trim(text);
    assert NoContent(t) by {
      forall q | 0 <= q < |t| ensures t[q] == ',' || IsSpace(t[q]) {
        assert t[q] == text[TrimOffset(text) + q];
      }
    }
    var ps := Split(t, ',');
    SplitNoContent(t);
    var ts := TrimAll(ps);
    forall k | 0 <= k < |ts| ensures ts[k] == [] {
      assert Blank(ps[k]) by {
        forall q | 0 <= q < |ps[k]| ensures IsSpace(ps[k][q]) {
          assert ps[k][q] in ps[k];
        }
      }
    }
    NonEmptyOfEmpties(ts);
  }

  /** Filtering a list of empty strings leaves nothing. */
  lemma {:induction false} NonEmptyOfEmpties(ps: seq<string>)
    requires forall k | 0 <= k < |ps| :: ps[k] == []
    ensures NonEmpty(ps) == []
  {
    if ps != [] {
      assert forall k | 0 <= k < |ps[1..]| :: ps[1..][k] == ps[k + 1];
      NonEmptyOfEmpties(ps[1..]);
    }
  }

  /** Splitting a text without content leaves pieces without content. */
  lemma {:induction false} SplitNoContent(s: string)
    requires NoContent(s)
    ensures forall k | 0 <= k < |Split(s, ',')| :: NoContent(Split(s, ',')[k])
    decreases |s|
  {
    var i := FirstIndex(s, ',');
    if i < |s| {
      var rest := s[i + 1..];
      assert NoContent(rest) by {
        forall q | 0 <= q < |rest| ensures rest[q] == ',' || IsSpace(rest[q]) {
          assert rest[q] == s[i + 1 + q];
        }
      }
      SplitNoContent(rest);
      assert Split(s, ',') == [s[..i]] + Split(rest, ',');
    }
  }

  /** ", ," is not blank, so the save goes ahead, and yet the saved wave is empty. */
  lemma CommasOnlySaveEmptyWave()
    ensures !Blank(", ,") && Tokens(", ,") == []
  {
    var s := ", ,";
    assert !IsSpace(s[0]);
    assert NoContent(s) by { assert IsSpace(s[1]); }
    NoContentNoTokens(s);
  }
}
