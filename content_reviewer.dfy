/** The image side of the content reviewer: the perceptual-hash blacklist of known CSAM images,
    kept both in memory and as a file of hexadecimal lines, and the per-attachment score list a
    message's images get. The hash of an image, the CSAM model's score and the vision service's
    scores are inputs; the image processing behind them is outside the model. */
module ContentReviewer {
  import opened Wrappers
  import opened Text
  import opened FlowEngine
  import opened Scores

  /** Side of the difference hash: a 12 by 12 hash has 144 bits, written as 36 hexadecimal digits. */
  const HASH_SIZE: nat := 12
  const HASH_DIGITS: nat := HASH_SIZE * HASH_SIZE / 4

  /** Two hashes at most this many bits apart show the same image. */
  const MATCH_DISTANCE: nat := 6

  /** `bin(n).count("1")`. */
  function PopCount(n: nat): nat {
    if n == 0 then 0 else n % 2 + PopCount(n / 2)
  }

  /** `a ^ b` on non-negative integers. */
  function Xor(a: nat, b: nat): nat
    decreases a + b
  {
    if a == 0 && b == 0 then 0 else (a % 2 + b % 2) % 2 + 2 * Xor(a / 2, b / 2)
  }

  /** The number of bits in which two hashes differ. */
  function Distance(a: nat, b: nat): (d: nat)
    ensures d == 0 <==> a == b
  {
    XorZero(a, b);
    PopCountZero(Xor(a, b));
    PopCount(Xor(a, b))
  }

  lemma {:induction false} PopCountZero(n: nat)
    ensures PopCount(n) == 0 <==> n == 0
  {
    if n > 0 {
      PopCountZero(n / 2);
    }
  }

  lemma {:induction false} XorZero(a: nat, b: nat)
    ensures Xor(a, b) == 0 <==> a == b
    decreases a + b
  {
    if !(a == 0 && b == 0) {
      XorZero(a / 2, b / 2);
    }
  }

  lemma {:induction false} XorCommutes(a: nat, b: nat)
    ensures Xor(a, b) == Xor(b, a)
    decreases a + b
  {
    if !(a == 0 && b == 0) {
      XorCommutes(a / 2, b / 2);
    }
  }

  /** Hashes are zero bits apart exactly when they are equal, and the distance is symmetric. */
  lemma DistanceIsAMetricOnZero(a: nat, b: nat)
    ensures Distance(a, b) == 0 <==> a == b
    ensures Distance(a, b) == Distance(b, a)
  {
    XorZero(a, b);
    PopCountZero(Xor(a, b));
    XorCommutes(a, b);
  }

  /** Some stored hash is close enough to `h`. */
  predicate Near(stored: seq<nat>, h: nat) {
    exists i :: 0 <= i < |stored| && Distance(stored[i], h) <= MATCH_DISTANCE
  }

  /** The position of the first stored hash close enough to `h`, the one the search stops at. */
  function FirstNear(stored: seq<nat>, h: nat): (r: Option<nat>)
    ensures r.None? <==> !Near(stored, h)
    ensures r.Some? ==> r.value < |stored| && Distance(stored[r.value], h) <= MATCH_DISTANCE
    ensures r.Some? ==> forall j :: 0 <= j < r.value ==> Distance(stored[j], h) > MATCH_DISTANCE
  {
    if stored == [] then None
    else if Distance(stored[0], h) <= MATCH_DISTANCE then Some(0)
    else
      var rest := FirstNear(stored[1..], h);
      assert forall j :: 1 <= j < |stored| ==> stored[j] == stored[1..][j - 1];
      if rest.None? then
        assert !Near(stored, h) by {
          forall i | 0 <= i < |stored| ensures Distance(stored[i], h) > MATCH_DISTANCE {
            if i > 0 {
              assert stored[i] == stored[1..][i - 1];
            }
          }
        }
        None
      else Some(rest.value + 1)
  }

  /** `hash_compare` as written: on a match at a non-zero distance from the first close hash, the
      new hash is added, even when an equal hash was added before. */
  function ComparedAsWritten(stored: seq<nat>, h: nat): (r: seq<nat>)
    ensures |stored| <= |r| <= |stored| + 1 && r[..|stored|] == stored
    ensures |r| > |stored| ==> Near(stored, h) && r[|stored|] == h
    ensures Near(stored, h) && h !in stored ==> |r| == |stored| + 1
  {
    var i := FirstNear(stored, h);
    if i.Some? && Distance(stored[i.value], h) > 0 then stored + [h] else stored
  }

  /** `hash_compare` corrected: a close hash not yet listed is added, so each hash is listed once. */
  function Compared(stored: seq<nat>, h: nat): (r: seq<nat>)
    ensures |stored| <= |r| <= |stored| + 1 && r[..|stored|] == stored
    ensures |r| > |stored| <==> Near(stored, h) && h !in stored
    ensures |r| > |stored| ==> r[|stored|] == h
    ensures Near(stored, h) ==> h in r
  {
    if Near(stored, h) && h !in stored then stored + [h] else stored
  }

  /** Each hash at most once. */
  predicate Distinct(s: seq<nat>) {
    forall i, j :: 0 <= i < j < |s| ==> s[i] != s[j]
  }

  /** The corrected comparison keeps the list free of duplicates, adds nothing on a second look at
      the same hash, and adds only near-duplicates of listed hashes. */
  lemma ComparedKeepsListDistinct(stored: seq<nat>, h: nat)
    requires Distinct(stored)
    ensures Distinct(Compared(stored, h))
    ensures Compared(Compared(stored, h), h) == Compared(stored, h)
    ensures |Compared(stored, h)| > |stored| ==> Near(stored, h) && Compared(stored, h)[|stored|] == h
  {
    var r := Compared(stored, h);
    if r != stored {
      assert r[|stored|] == h;
      DistanceIsAMetricOnZero(h, h);
      assert Near(r, h) by {
        assert Distance(r[|stored|], h) == 0;
      }
    }
  }

  /** The corrected comparison differs from the code as written only in not re-adding a hash that
      is already listed behind the first close one. */
  lemma ComparedDiffersOnlyOnRepeats(stored: seq<nat>, h: nat)
    ensures Compared(stored, h) != ComparedAsWritten(stored, h) <==>
              Near(stored, h) && h in stored && stored[FirstNear(stored, h).value] != h
  {
    var i := FirstNear(stored, h);
    if i.Some? {
      DistanceIsAMetricOnZero(stored[i.value], h);
      if h !in stored {
        assert stored[i.value] != h;
      }
    }
  }

  /** As written, the same near-duplicate seen twice is listed twice. */
  lemma NearDuplicateSavedTwiceAsWritten()
    ensures Distance(0, 1) == 1
    ensures ComparedAsWritten(ComparedAsWritten([0], 1), 1) == [0, 1, 1]
    ensures Compared(Compared([0], 1), 1) == [0, 1]
  {
    assert Xor(0, 1) == 1;
    assert FirstNear([0, 1], 1) == Some(0);
    assert Near([0], 1) by {
      assert Distance([0][0], 1) <= MATCH_DISTANCE;
    }
  }

  /** The line `save_hash` writes: the hash in hexadecimal, then a newline. */
  function HexLine(h: nat): (line: string)
    ensures |line| > HASH_DIGITS && line[|line| - 1] == '\n'
    ensures forall k :: 0 <= k < |line| - 1 ==> line[k] != '\n'
  {
    var hex := HexString(h, HASH_DIGITS);
    assert forall k :: 0 <= k < |hex| ==> hex[k] != '\n' by {
      forall k | 0 <= k < |hex| ensures hex[k] != '\n' {
        assert IsHexDigit(hex[k]);
      }
    }
    hex + "\n"
  }

  /** The lines of the hash-list file written for `hs`, in order. */
  function HexLines(hs: seq<nat>): string {
    if hs == [] then [] else HexLines(hs[..|hs| - 1]) + HexLine(hs[|hs| - 1])
  }

  /** The length of the first line of `s`, its newline included. */
  function LineEnd(s: string): (n: nat)
    ensures n <= |s| && (s != [] ==> n >= 1)
    ensures n < |s| ==> s[n - 1] == '\n'
    ensures forall k :: 0 <= k < n - 1 ==> s[k] != '\n'
  {
    if s == [] then 0 else if s[0] == '\n' then 1 else 1 + LineEnd(s[1..])
  }

  /** The lines a file is read in, each with its newline; the last may lack one. */
  function Lines(s: string): (r: seq<string>)
    ensures r == [] <==> s == []
    ensures forall k :: 0 <= k < |r| ==> r[k] != []
    ensures forall k :: 0 <= k < |r| - 1 ==> r[k][|r[k]| - 1] == '\n'
    decreases |s|
  {
    if s == [] then [] else [s[..LineEnd(s)]] + Lines(s[LineEnd(s)..])
  }

  /** The file is empty or ends with a newline, so an appended line starts a line of its own. */
  predicate Terminated(s: string) {
    s == [] || s[|s| - 1] == '\n'
  }

  lemma {:induction false} LineEndWithin(a: string, b: string)
    requires exists k :: 0 <= k < |a| && a[k] == '\n'
    ensures LineEnd(a + b) == LineEnd(a)
  {
    if a[0] != '\n' {
      var k :| 0 <= k < |a| && a[k] == '\n';
      assert a[1..][k - 1] == '\n';
      assert (a + b)[1..] == a[1..] + b;
      LineEndWithin(a[1..], b);
    }
  }

  lemma {:induction false} LineEndOfLine(line: string)
    requires line != [] && line[|line| - 1] == '\n'
    requires forall k :: 0 <= k < |line| - 1 ==> line[k] != '\n'
    ensures LineEnd(line) == |line|
  {
    if line[0] != '\n' {
      LineEndOfLine(line[1..]);
    }
  }

  /** Reading a terminated file followed by more text gives the file's lines, then the others. */
  lemma {:induction false} LinesAppend(a: string, b: string)
    requires Terminated(a)
    ensures Lines(a + b) == Lines(a) + Lines(b)
    decreases |a|
  {
    if a == [] {
      assert a + b == b;
    } else {
      assert a[|a| - 1] == '\n';
      LineEndWithin(a, b);
      var n := LineEnd(a);
      assert (a + b)[..n] == a[..n];
      assert (a + b)[n..] == a[n..] + b;
      LinesAppend(a[n..], b);
    }
  }

  /** `int(line, 16)` on each line; the first malformed line raises ValueError (None here). */
  function ParseAll(ls: seq<string>): (r: Option<seq<nat>>)
    ensures r.Some? ==> |r.value| == |ls|
  {
    if ls == [] then Some([])
    else
      match (ParseAll(ls[..|ls| - 1]), ParseHex(ls[|ls| - 1]))
      case (Some(xs), Some(x)) => Some(xs + [x])
      case _ => None
  }

  /** The hashes read from the file at start-up. */
  function Load(file: string): (r: Option<seq<nat>>)
    ensures file == [] ==> r == Some([])
    ensures r.Some? ==> |r.value| == |Lines(file)|
  {
    ParseAll(Lines(file))
  }

  /** A saved hash reads back: after appending its line to a file that loads as `hashes`, the file
      loads as `hashes` followed by it. */
  lemma SavedHashReadsBack(file: string, hashes: seq<nat>, h: nat)
    requires Terminated(file) && Load(file) == Some(hashes)
    ensures Terminated(file + HexLine(h))
    ensures Load(file + HexLine(h)) == Some(hashes + [h])
  {
    var line := HexLine(h);
    LinesAppend(file, line);
    OneLine(line);
    var ls := Lines(file) + [line];
    assert ls[..|ls| - 1] == Lines(file);
    HexLineRoundTrip(h, HASH_DIGITS);
    assert ParseHex(ls[|ls| - 1]) == Some(h);
  }

  /** Every hash saved since start-up reads back when the start-up file ended with a newline (or
      was empty): the file then loads as the loaded hashes followed by the saved ones. */
  lemma {:induction false} SavedHashesReadBack(base: string, loaded: seq<nat>, added: seq<nat>)
    requires Terminated(base) && Load(base) == Some(loaded)
    ensures Terminated(base + HexLines(added))
    ensures Load(base + HexLines(added)) == Some(loaded + added)
    decreases |added|
  {
    if added == [] {
      assert base + HexLines(added) == base;
      assert loaded + added == loaded;
    } else {
      var front := added[..|added| - 1];
      var h := added[|added| - 1];
      SavedHashesReadBack(base, loaded, front);
      var f := base + HexLines(front);
      SavedHashReadsBack(f, loaded + front, h);
      assert HexLines(added) == HexLines(front) + HexLine(h);
      Regroup(base, HexLines(front), HexLine(h));
      LastSplit(added);
      Regroup(loaded, front, [h]);
    }
  }

  /** A non-empty list is its front followed by its last element. */
  lemma LastSplit(s: seq<nat>)
    requires s != []
    ensures s == s[..|s| - 1] + [s[|s| - 1]]
  {
  }

  /** `save_hash` writes its line after whatever the file holds: when the start-up file's last line
      has no newline, the saved hash is written onto that line, so the file holds one line fewer
      than the in-memory list has hashes, and the next start-up does not read the list back (it
      reads one merged number in place of two, or raises ValueError on it). */
  lemma UnterminatedFileMergesNextHash(base: string, loaded: seq<nat>, h: nat)
    requires !Terminated(base) && Load(base) == Some(loaded)
    ensures var ls := Lines(base);
      ls != [] && Lines(base + HexLine(h)) == ls[..|ls| - 1] + [ls[|ls| - 1] + HexLine(h)]
    ensures Load(base + HexLine(h)) != Some(loaded + [h])
  {
    var line := HexLine(h);
    MergedLastLine(base, line);
    var ls := Lines(base);
    var merged := Lines(base + line);
    assert |merged| == |ls|;
    var r := Load(base + line);
    assert r.Some? ==> |r.value| == |ls|;
  }

  /** Appending a line to a text whose last line has no newline extends that last line. */
  lemma {:induction false} MergedLastLine(a: string, line: string)
    requires !Terminated(a)
    requires line != [] && line[|line| - 1] == '\n'
    requires forall k :: 0 <= k < |line| - 1 ==> line[k] != '\n'
    ensures var ls := Lines(a);
      ls != [] && Lines(a + line) == ls[..|ls| - 1] + [ls[|ls| - 1] + line]
    decreases |a|
  {
    if exists k :: 0 <= k < |a| && a[k] == '\n' {
      LineEndWithin(a, line);
      var n := LineEnd(a);
      assert (a + line)[..n] == a[..n];
      assert (a + line)[n..] == a[n..] + line;
      LineEndIsNewline(a);
      assert n < |a|;
      assert a[n..][|a[n..]| - 1] == a[|a| - 1];
      MergedLastLine(a[n..], line);
      var ls, rest := Lines(a), Lines(a[n..]);
      assert ls == [a[..n]] + rest;
      assert ls[..|ls| - 1] == [a[..n]] + rest[..|rest| - 1];
    } else {
      NoNewlineLineEnd(a, line);
      NoNewlineLineEnd(a, []);
      assert a + [] == a;
      LineEndOfLine(line);
      assert (a + line)[|a + line|..] == [];
      assert a[|a|..] == [];
      assert (a + line)[..|a + line|] == a + line;
      assert a[..|a|] == a;
    }
  }

  /** In a text holding a newline, the first line ends with one. */
  lemma {:induction false} LineEndIsNewline(s: string)
    requires exists k :: 0 <= k < |s| && s[k] == '\n'
    ensures s[LineEnd(s) - 1] == '\n'
  {
    if s[0] != '\n' {
      var k :| 0 <= k < |s| && s[k] == '\n';
      assert s[1..][k - 1] == '\n';
      LineEndIsNewline(s[1..]);
    }
  }

  /** A text without a newline is a prefix of the first line. */
  lemma {:induction false} NoNewlineLineEnd(a: string, b: string)
    requires forall k :: 0 <= k < |a| ==> a[k] != '\n'
    ensures LineEnd(a + b) == |a| + LineEnd(b)
  {
    if a != [] {
      assert (a + b)[1..] == a[1..] + b;
      NoNewlineLineEnd(a[1..], b);
    } else {
      assert a + b == b;
    }
  }

  /** A text with a single newline, at its end, is read as one line. */
  lemma OneLine(line: string)
    requires line != [] && line[|line| - 1] == '\n'
    requires forall k :: 0 <= k < |line| - 1 ==> line[k] != '\n'
    ensures Lines(line) == [line]
  {
    LineEndOfLine(line);
    assert line[LineEnd(line)..] == [];
    assert line[..LineEnd(line)] == line;
  }

  /** An attachment is an image when it has a non-zero height. */
  predicate IsImage(a: Attachment) {
    a.height.Some? && a.height.value > 0
  }

  /** What the classifiers return for one image: the CSAM model's score, its difference hash, and
      the vision service's gore, adult and racy scores. */
  datatype Reading = Reading(csam: real, dhash: nat, gore: real, adult: real, racy: real)

  /** `review_images`: one entry per attachment, in order, and the hash list as it is afterwards.
      A non-image gets zero scores and no hash entry; an image gets its scores and whether its hash
      matched the list as it stood when the image was reached. */
  function Reviewed(stored: seq<nat>, atts: seq<Attachment>, readings: seq<Reading>): (r: (seq<ImageScores>, seq<nat>))
    requires |readings| == |atts|
    ensures |r.0| == |atts|
    ensures |stored| <= |r.1| && r.1[..|stored|] == stored
    ensures forall i :: 0 <= i < |atts| && !IsImage(atts[i]) ==> r.0[i] == NON_IMAGE
    ensures forall i :: 0 <= i < |atts| && IsImage(atts[i]) ==>
              r.0[i].csamHash.Some? && r.0[i].csam == readings[i].csam && r.0[i].gore == readings[i].gore
              && r.0[i].adult == readings[i].adult && r.0[i].racy == readings[i].racy
  {
    if atts == [] then ([], stored)
    else
      var n := |atts| - 1;
      var prev := Reviewed(stored, atts[..n], readings[..n]);
      var (entry, after) := ReviewedOne(prev.1, atts[n], readings[n]);
      assert after[..|stored|] == stored by {
        assert after[..|prev.1|] == prev.1;
      }
      (prev.0 + [entry], after)
  }

  /** Reviewing one attachment more extends the entries by its own. */
  lemma ReviewedStep(stored: seq<nat>, atts: seq<Attachment>, readings: seq<Reading>, i: nat)
    requires |readings| == |atts| && i < |atts|
    ensures var prev := Reviewed(stored, atts[..i], readings[..i]);
      var one := ReviewedOne(prev.1, atts[i], readings[i]);
      Reviewed(stored, atts[..i + 1], readings[..i + 1]) == (prev.0 + [one.0], one.1)
  {
    assert atts[..i + 1][..i] == atts[..i] && readings[..i + 1][..i] == readings[..i];
  }

  /** One attachment of `review_images`: its entry and the hash list afterwards. */
  function ReviewedOne(stored: seq<nat>, a: Attachment, x: Reading): (r: (ImageScores, seq<nat>))
    ensures |stored| <= |r.1| && r.1[..|stored|] == stored
    ensures !IsImage(a) ==> r == (NON_IMAGE, stored)
    ensures IsImage(a) ==> r.0 == ImageScores(x.gore, x.adult, x.racy, x.csam, Some(Near(stored, x.dhash)))
  {
    if IsImage(a) then (ImageScores(x.gore, x.adult, x.racy, x.csam, Some(Near(stored, x.dhash))), Compared(stored, x.dhash))
    else (NON_IMAGE, stored)
  }

  /** Only images are ever flagged as CSAM candidates without a KeyError: every non-image entry
      lacks the hash the candidate test reads once its score is below the threshold. */
  lemma NonImagesBreakTheCandidateTest(stored: seq<nat>, atts: seq<Attachment>, readings: seq<Reading>, i: nat)
    requires |readings| == |atts| && i < |atts| && !IsImage(atts[i])
    ensures CsamCandidate(Reviewed(stored, atts, readings).0[i]) == Err("KeyError")
  {
  }

  /** The reviewer's hash list: in memory, and the file it is also written to. `base` is the file
      as it was read at start-up and `loaded` the hashes read from it. */
  class Reviewer {
    var hashes: seq<nat>
    var file: string
    ghost const base: string
    ghost const loaded: seq<nat>

    /** The in-memory list is the loaded one followed by the hashes saved since, and the file is
        the start-up file followed by one written line per saved hash. Whether the file reads back
        as the list depends on how the start-up file ended (`SavedHashesReadBack`,
        `UnterminatedFileMergesNextHash`). */
    ghost predicate Valid()
      reads this
    {
      Load(base) == Some(loaded) && SavedSince(base, loaded, hashes, file)
    }

    /** Start-up: the list is read from the file, whether or not its last line ends in a newline. */
    constructor (contents: string)
      requires Load(contents).Some?
      ensures Valid() && file == contents && hashes == Load(contents).value
      ensures base == contents && loaded == hashes
    {
      file := contents;
      hashes := Load(contents).value;
      base := contents;
      loaded := Load(contents).value;
      new;
      assert hashes[|loaded|..] == [];
    }

    /** `hash_compare(img)`, corrected: whether a listed hash is within six bits of `h`; a close hash
        not yet listed is saved. */
    method HashCompare(h: nat) returns (matched: bool)
      requires Valid()
      modifies this
      ensures Valid()
      ensures matched <==> Near(old(hashes), h)
      ensures hashes == Compared(old(hashes), h)
      ensures file == old(file) + HexLines(hashes[|old(hashes)|..])
    {
      matched := Search(h);
      if matched && h !in hashes {
        SaveHash(h);
      } else {
        assert hashes[|hashes|..] == [];
      }
    }

    /** The search loop of `hash_compare`: it stops at the first listed hash within six bits. */
    method Search(h: nat) returns (found: bool)
      ensures found <==> Near(hashes, h)
    {
      var i := 0;
      while i < |hashes|
        invariant 0 <= i <= |hashes|
        invariant forall j :: 0 <= j < i ==> Distance(hashes[j], h) > MATCH_DISTANCE
      {
        if Distance(hashes[i], h) <= MATCH_DISTANCE {
          return true;
        }
        i := i + 1;
      }
      return false;
    }

    /** `save_hash(img)`: the hash joins the list and its line is written to the file. */
    method SaveHash(h: nat)
      requires Valid()
      modifies this
      ensures Valid()
      ensures hashes == old(hashes) + [h]
      ensures file == old(file) + HexLine(h) == old(file) + HexLines(hashes[|old(hashes)|..])
    {
      SavedLine(base, loaded, hashes, file, h);
      hashes := hashes + [h];
      file := file + HexLine(h);
      assert hashes[|old(hashes)|..] == [h];
      assert HexLines([h]) == HexLine(h);
    }

    /** The body of `review_images`'s loop: a non-image is skipped with zero scores; an image is
        scored and its hash compared with the list. */
    method ReviewOne(a: Attachment, x: Reading) returns (entry: ImageScores)
      requires Valid()
      modifies this
      ensures Valid()
      ensures (entry, hashes) == ReviewedOne(old(hashes), a, x)
      ensures file == old(file) + HexLines(hashes[|old(hashes)|..])
    {
      if IsImage(a) {
        var matched := HashCompare(x.dhash);
        entry := ImageScores(x.gore, x.adult, x.racy, x.csam, Some(matched));
      } else {
        entry := NON_IMAGE;
        assert hashes[|hashes|..] == [];
      }
    }

    /** `review_images(message)`, the classifiers' readings of each attachment given. */
    method ReviewImages(atts: seq<Attachment>, readings: seq<Reading>) returns (list: seq<ImageScores>)
      requires Valid() && |readings| == |atts|
      modifies this
      ensures Valid()
      ensures (list, hashes) == Reviewed(old(hashes), atts, readings)
      ensures file == old(file) + HexLines(hashes[|old(hashes)|..])
    {
      list := [];
      var i := 0;
      while i < |atts|
        invariant 0 <= i <= |atts| && Valid()
        invariant (list, hashes) == Reviewed(old(hashes), atts[..i], readings[..i])
        invariant file == old(file) + HexLines(hashes[|old(hashes)|..])
      {
        list := ReviewNext(old(hashes), old(file), atts, readings, i, list);
        i := i + 1;
      }
      assert atts[..i] == atts && readings[..i] == readings;
    }

    /** One turn of `review_images`'s loop: the entries and the list now cover attachment i too. */
    method ReviewNext(ghost start: seq<nat>, ghost startFile: string, atts: seq<Attachment>,
                      readings: seq<Reading>, i: nat, list: seq<ImageScores>) returns (next: seq<ImageScores>)
      requires Valid() && |readings| == |atts| && i < |atts|
      requires (list, hashes) == Reviewed(start, atts[..i], readings[..i])
      requires file == startFile + HexLines(hashes[|start|..])
      modifies this
      ensures Valid()
      ensures (next, hashes) == Reviewed(start, atts[..i + 1], readings[..i + 1])
      ensures file == startFile + HexLines(hashes[|start|..])
    {
      ReviewedStep(start, atts, readings, i);
      ghost var before := hashes;
      var entry := ReviewOne(atts[i], readings[i]);
      AddedLines(start, before, hashes);
      Regroup(startFile, HexLines(before[|start|..]), HexLines(hashes[|before|..]));
      next := list + [entry];
    }
  }

  /** The lines written for a list that grew in two steps are those of each step in turn. */
  lemma AddedLines(a: seq<nat>, b: seq<nat>, c: seq<nat>)
    requires |a| <= |b| <= |c| && b[..|a|] == a && c[..|b|] == b
    ensures HexLines(c[|a|..]) == HexLines(b[|a|..]) + HexLines(c[|b|..])
    decreases |c| - |b|
  {
    if |c| > |b| {
      var c' := c[..|c| - 1];
      AddedLines(a, b, c');
      assert c[|a|..][..|c[|a|..]| - 1] == c'[|a|..];
      assert c[|b|..][..|c[|b|..]| - 1] == c'[|b|..];
      Regroup(HexLines(b[|a|..]), HexLines(c'[|b|..]), HexLine(c[|c| - 1]));
    } else {
      assert c == b;
    }
  }

  /** The list is `loaded` followed by the hashes saved since, and the file is `base` followed by
      their written lines. */
  predicate SavedSince(base: string, loaded: seq<nat>, hashes: seq<nat>, file: string) {
    |loaded| <= |hashes| && hashes[..|loaded|] == loaded && file == base + HexLines(hashes[|loaded|..])
  }

  /** Saving one hash adds one written line after those of the hashes saved before. */
  lemma SavedLine(base: string, loaded: seq<nat>, hashes: seq<nat>, file: string, h: nat)
    requires SavedSince(base, loaded, hashes, file)
    ensures SavedSince(base, loaded, hashes + [h], file + HexLine(h))
  {
    var s := (hashes + [h])[|loaded|..];
    assert s[..|s| - 1] == hashes[|loaded|..];
    assert (hashes + [h])[..|loaded|] == hashes[..|loaded|];
    Regroup(base, HexLines(hashes[|loaded|..]), HexLine(h));
  }
}
