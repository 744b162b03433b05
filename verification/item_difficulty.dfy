/** Seeding item difficulties: a question's difficulty label becomes a Rasch
    difficulty b, and its Elo base is derived from b as 1500 + 200 b. */
module ItemDifficulty {
  import opened Wrappers
  import opened Text

  /** The b written to a label that is not in the table. */
  const DefaultB: real := 0.0

  datatype Level = Easy | MediumLevel | Hard | Challenging | Unknown

  /** `DIFFICULTY_TO_B` as a lookup on the normalised label. */
  function LevelOfLabel(name: string): (lv: Level)
    ensures lv == Easy <==> name == "easy"
    ensures lv == MediumLevel <==> name == "medium"
    ensures lv == Hard <==> name == "hard"
    ensures lv == Challenging <==> name == "challenging"
  {
    if name == "easy" then Easy
    else if name == "medium" then MediumLevel
    else if name == "hard" then Hard
    else if name == "challenging" then Challenging
    else Unknown
  }

  function BOfLevel(lv: Level): real {
    match lv
    case Easy => -1.5
    case MediumLevel => 0.0
    case Hard => 1.5
    case Challenging => 3.0
    case Unknown => DefaultB
  }

  /** `b_to_elo`: b = 0 is 1500, and every unit of b is 200 Elo points. */
  function BToElo(b: real): (elo: real)
    ensures b == 0.0 ==> elo == 1500.0
    ensures (elo - 1500.0) / 200.0 == b
  {
    1500.0 + b * 200.0
  }

  /** A harder item always gets a higher Elo. */
  lemma BToEloStrictlyIncreasing(b1: real, b2: real)
    requires b1 < b2
    ensures BToElo(b1) < BToElo(b2)
  {
  }

  /** The four named levels land on 1200, 1500, 1800 and 2100 Elo, in
      increasing order of difficulty; an unknown label lands on 1500. */
  lemma LevelElos()
    ensures BToElo(BOfLevel(Easy)) == 1200.0 && BToElo(BOfLevel(MediumLevel)) == 1500.0
    ensures BToElo(BOfLevel(Hard)) == 1800.0 && BToElo(BOfLevel(Challenging)) == 2100.0
    ensures BToElo(BOfLevel(Unknown)) == 1500.0
  {
  }

  /** `(q['difficulty_level'] or '').lower().strip()`: a missing label reads as
      the empty string. */
  function NormalizeLabel(raw: Option<string>): (name: string)
    ensures |name| <= |raw.GetOr("")|
    ensures forall i :: 0 <= i < |name| ==> !IsUpperAscii(name[i])
    ensures raw.None? ==> name == ""
  {
    var s := Lower(raw.GetOr(""));
    var t := Strip(s);
    StripKeepsLower(s);
    t
  }

  lemma StripKeepsLower(s: string)
    requires forall i :: 0 <= i < |s| ==> !IsUpperAscii(s[i])
    ensures forall i :: 0 <= i < |Strip(s)| ==> !IsUpperAscii(Strip(s)[i])
  {
    var l := StripLeft(s);
    assert forall i :: 0 <= i < |l| ==> l[i] == s[|s| - |l| + i];
    var r := StripRight(l);
    assert forall i :: 0 <= i < |r| ==> r[i] == l[i];
  }

  /** What the seeding writes for one question. */
  datatype Assignment = Assignment(id: string, level: Level, b: real, elo: real)

  datatype Question = Question(id: string, rawLevel: Option<string>)

  function Assign(q: Question): (a: Assignment)
    ensures a.id == q.id && a.elo == BToElo(a.b)
    ensures a.b == BOfLevel(a.level)
    ensures a.level == Unknown ==> a.b == DefaultB && a.elo == 1500.0
  {
    var lv := LevelOfLabel(NormalizeLabel(q.rawLevel));
    Assignment(q.id, lv, BOfLevel(lv), BToElo(BOfLevel(lv)))
  }

  /** Case and surrounding whitespace do not matter: a label padded with
      whitespace normalises to its lower-cased core, so " Hard\n" is hard. */
  lemma PaddedLabel(pre: string, core: string, post: string)
    requires forall i :: 0 <= i < |pre| ==> IsSpace(pre[i])
    requires forall i :: 0 <= i < |post| ==> IsSpace(post[i])
    requires |core| > 0 && !IsSpace(core[0]) && !IsSpace(core[|core| - 1])
    ensures NormalizeLabel(Some(pre + core + post)) == Lower(core)
  {
    var lc := Lower(core);
    var lpre := Lower(pre);
    var lpost := Lower(post);
    var lowered := Lower(pre + core + post);
    assert lowered == lpre + (lc + lpost) by {
      LowerAppend(pre, core);
      LowerAppend(pre + core, post);
    }
    assert !IsSpace(lc[0]) && !IsSpace(lc[|lc| - 1]);
    assert StripLeft(lowered) == lc + lpost by {
      assert (lc + lpost)[0] == lc[0];
      StripLeftSpaces(lpre, lc + lpost);
    }
    assert StripRight(lc + lpost) == lc by {
      StripRightSpaces(lc, lpost);
    }
  }

  /** The information separators count as whitespace too: "Hard" followed
      by U+001C is hard. */
  lemma SeparatorPaddedLabel()
    ensures NormalizeLabel(Some("Hard\U{001C}")) == "hard"
  {
    assert "Hard\U{001C}" == [] + "Hard" + "\U{001C}";
    PaddedLabel([], "Hard", "\U{001C}");
    assert Lower("Hard") == "hard";
  }

  lemma LowerAppend(a: string, b: string)
    ensures Lower(a + b) == Lower(a) + Lower(b)
  {
    assert forall i :: 0 <= i < |a + b| ==> Lower(a + b)[i] == (Lower(a) + Lower(b))[i];
  }

  lemma StripLeftSpaces(pre: string, rest: string)
    requires forall i :: 0 <= i < |pre| ==> IsSpace(pre[i])
    requires |rest| > 0 && !IsSpace(rest[0])
    ensures StripLeft(pre + rest) == rest
  {
    var s := pre + rest;
    assert s[|pre|] == rest[0];
    SkipSpacesOver(s, 0, |pre|);
    assert s[|pre|..] == rest;
  }

  lemma StripRightSpaces(body: string, post: string)
    requires forall i :: 0 <= i < |post| ==> IsSpace(post[i])
    requires |body| > 0 && !IsSpace(body[|body| - 1])
    ensures StripRight(body + post) == body
  {
    var s := body + post;
    assert s[|body| - 1] == body[|body| - 1];
    assert forall m :: |body| <= m < |s| ==> s[m] == post[m - |body|];
    TrimEndOver(s, |s|, |body|);
    assert s[..|body|] == body;
  }

  /** The summary's per-level tallies. */
  datatype Stats = Stats(easy: nat, medium: nat, hard: nat, challenging: nat, unknown: nat) {
    function Total(): nat { easy + medium + hard + challenging + unknown }
    function Of(lv: Level): nat {
      match lv
      case Easy => easy
      case MediumLevel => medium
      case Hard => hard
      case Challenging => challenging
      case Unknown => unknown
    }
    function Bump(lv: Level): (r: Stats)
      ensures forall x :: r.Of(x) == Of(x) + (if x == lv then 1 else 0)
      ensures r.Total() == Total() + 1
    {
      match lv
      case Easy => this.(easy := easy + 1)
      case MediumLevel => this.(medium := medium + 1)
      case Hard => this.(hard := hard + 1)
      case Challenging => this.(challenging := challenging + 1)
      case Unknown => this.(unknown := unknown + 1)
    }
  }

  /** The summary's tallies over the levels assigned so far. */
  function Tally(levels: seq<Level>): (stats: Stats)
    ensures stats.Total() == |levels|
  {
    if |levels| == 0 then Stats(0, 0, 0, 0, 0)
    else Tally(levels[1..]).Bump(levels[0])
  }

  /** How many entries are the given level. */
  function CountOf(levels: seq<Level>, lv: Level): (n: nat)
    ensures n <= |levels|
  {
    if |levels| == 0 then 0
    else CountOf(levels[1..], lv) + (if levels[0] == lv then 1 else 0)
  }

  /** The tally's entry for a level is the number of entries of that level. */
  lemma {:induction false} TallyCounts(levels: seq<Level>, lv: Level)
    ensures Tally(levels).Of(lv) == CountOf(levels, lv)
  {
    if |levels| > 0 {
      TallyCounts(levels[1..], lv);
    }
  }

  function LevelsOf(written: seq<Assignment>): (levels: seq<Level>)
    ensures |levels| == |written| && forall i :: 0 <= i < |written| ==> levels[i] == written[i].level
  {
    seq(|written|, i requires 0 <= i < |written| => written[i].level)
  }

  /** `init_item_difficulties` without the database: one assignment per
      question, in order, and the summary tallies of their levels. */
  function InitItemDifficulties(qs: seq<Question>): (r: (seq<Assignment>, Stats))
    ensures |r.0| == |qs| && r.1.Total() == |qs|
    ensures forall i :: 0 <= i < |qs| ==> r.0[i].id == qs[i].id && r.0[i].elo == BToElo(r.0[i].b)
    ensures forall lv :: r.1.Of(lv) == CountOf(LevelsOf(r.0), lv)
  {
    var written := seq(|qs|, i requires 0 <= i < |qs| => Assign(qs[i]));
    var levels := LevelsOf(written);
    forall lv ensures Tally(levels).Of(lv) == CountOf(levels, lv) {
      TallyCounts(levels, lv);
    }
    (written, Tally(levels))
  }
}
