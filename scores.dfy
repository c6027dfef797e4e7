/**
 * The values the scoring pipeline works on and the specifications its
 * steps are proved against: the decoded answers of a form submission, the
 * per-name scores, sub-trait accumulation, the roll-up of sub-traits into
 * traits, the per-letter floor table and round-half-to-even. Both
 * variants share all of this; they differ only in the ordinal offset of
 * the rule lookup and in how they normalise.
 */
module Scores {
  import opened ScoringKey

  /** The fields of one decoded form answer that the pipeline reads. */
  datatype Answer = Answer(text: string, email: string, phone: string, number: int)

  /** The outcome of decoding a webhook payload: either it failed, or it
      produced the form's answers in order. */
  datatype Payload = Malformed | Decoded(answers: seq<Answer>)

  /** A sub-trait or trait score. Raw scores and floors are integers (sums of
      integer products and `Atoi` results); normal scores are rationals. */
  datatype Trait = Trait(name: string, rawScore: int, normalScore: real, min: int)

  /** Answers 0, 1 and 2 are the respondent's name, email and phone. */
  const IdentityAnswers := 3

  /** The zero value a Go map read yields for a missing question number. */
  const NoQuestion := Question(0, "", 0, "", 0)

  /** The rule stored under `ordinal`, or the zero rule (which scores nothing). */
  function RuleAt(data: map<int, Question>, ordinal: int): (q: Question)
    ensures ordinal in data ==> q == data[ordinal]
    ensures ordinal !in data ==> q.traitName == "" && q.key == 0
  {
    if ordinal in data then data[ordinal] else NoQuestion
  }

  /** The rule governing the scored answer at position `i`. */
  function RuleFor(data: map<int, Question>, offset: int, i: int): Question
  {
    RuleAt(data, i + offset)
  }

  /**
   * The sub-trait map after the accumulation loop has seen `scored` (the
   * answers after the identity answers): the answer at position i is scored
   * by the rule at ordinal i + offset; a rule without a trait contributes
   * nothing; otherwise key * answer is added to the trait's raw score, and a
   * trait seen for the first time takes its floor from that rule.
   */
  function SubtraitScores(scored: seq<Answer>, data: map<int, Question>, offset: int): (subs: map<string, Trait>)
    ensures WellFormedSubtraits(subs)
    ensures forall name :: name in subs ==> subs[name].normalScore == 0.0
  {
    if scored == [] then map[]
    else
      var i := |scored| - 1;
      var subs := SubtraitScores(scored[..i], data, offset);
      var q := RuleFor(data, offset, i);
      var points := q.key * scored[i].number;
      if q.traitName == "" then subs
      else if q.traitName in subs then subs[q.traitName := subs[q.traitName].(rawScore := subs[q.traitName].rawScore + points)]
      else subs[q.traitName := Trait(q.traitName, points, 0.0, q.min)]
  }

  /** Every sub-trait is filed under its own, non-empty name. */
  ghost predicate WellFormedSubtraits(subs: map<string, Trait>)
  {
    forall name :: name in subs ==> name != "" && subs[name].name == name
  }

  /** Reference definition of a sub-trait's raw score: key * answer summed
      over the scored answers whose rule names that sub-trait. */
  function WeightedSum(scored: seq<Answer>, data: map<int, Question>, offset: int, name: string): int
  {
    if scored == [] then 0
    else
      var i := |scored| - 1;
      var q := RuleFor(data, offset, i);
      WeightedSum(scored[..i], data, offset, name) + (if q.traitName == name then q.key * scored[i].number else 0)
  }

  /** Some scored answer's rule names `name`. */
  ghost predicate Mentions(scored: seq<Answer>, data: map<int, Question>, offset: int, name: string)
  {
    exists i :: 0 <= i < |scored| && RuleFor(data, offset, i).traitName == name
  }

  /** A sub-trait exists exactly when it is non-empty and a scored answer's
      rule names it; answers whose rule has no trait create nothing. */
  lemma {:induction false} SubtraitKeys(scored: seq<Answer>, data: map<int, Question>, offset: int, name: string)
    ensures name in SubtraitScores(scored, data, offset) <==> name != "" && Mentions(scored, data, offset, name)
  {
    if scored != [] {
      var i := |scored| - 1;
      var init := scored[..i];
      SubtraitKeys(init, data, offset, name);
      if Mentions(init, data, offset, name) {
        var j :| 0 <= j < |init| && RuleFor(data, offset, j).traitName == name;
        assert 0 <= j < |scored|;
      }
      if Mentions(scored, data, offset, name) && RuleFor(data, offset, i).traitName != name {
        var j :| 0 <= j < |scored| && RuleFor(data, offset, j).traitName == name;
        assert j < i;
      }
    }
  }

  /** A sub-trait's raw score is the weighted sum of the answers filed under
      it; a name that never occurs has nothing to sum. */
  lemma {:induction false} SubtraitRawScore(scored: seq<Answer>, data: map<int, Question>, offset: int, name: string)
    requires name != ""
    ensures name in SubtraitScores(scored, data, offset) ==>
              SubtraitScores(scored, data, offset)[name].rawScore == WeightedSum(scored, data, offset, name)
    ensures name !in SubtraitScores(scored, data, offset) ==> WeightedSum(scored, data, offset, name) == 0
  {
    if scored != [] {
      SubtraitRawScore(scored[..|scored| - 1], data, offset, name);
    }
  }

  /** A sub-trait's floor is the floor of the first rule that names it. */
  lemma {:induction false} SubtraitFloor(scored: seq<Answer>, data: map<int, Question>, offset: int, j: int)
    requires 0 <= j < |scored|
    requires RuleFor(data, offset, j).traitName != ""
    requires forall k :: 0 <= k < j ==> RuleFor(data, offset, k).traitName != RuleFor(data, offset, j).traitName
    ensures RuleFor(data, offset, j).traitName in SubtraitScores(scored, data, offset)
    ensures SubtraitScores(scored, data, offset)[RuleFor(data, offset, j).traitName].min == RuleFor(data, offset, j).min
  {
    var name := RuleFor(data, offset, j).traitName;
    var i := |scored| - 1;
    var init := scored[..i];
    if j < i {
      SubtraitFloor(init, data, offset, j);
    } else {
      SubtraitKeys(init, data, offset, name);
    }
  }

  /** Only the rules an answer is scored by matter: two keys (and offsets)
      that agree on the rule of every scored position give the same scores. */
  lemma {:induction false} SameRulesSameScores(scored: seq<Answer>, d1: map<int, Question>, o1: int, d2: map<int, Question>, o2: int)
    requires forall i :: 0 <= i < |scored| ==> RuleFor(d1, o1, i) == RuleFor(d2, o2, i)
    ensures SubtraitScores(scored, d1, o1) == SubtraitScores(scored, d2, o2)
  {
    if scored != [] {
      SameRulesSameScores(scored[..|scored| - 1], d1, o1, d2, o2);
    }
  }

  /** The key renumbered one lower: the rule for question n moves to n - 1. */
  function ShiftDown(data: map<int, Question>): (shifted: map<int, Question>)
    ensures forall n :: n in shifted <==> n + 1 in data
    ensures forall n :: n in shifted ==> shifted[n] == data[n + 1]
  {
    var ordinals := set m | m in data :: m - 1;
    map n | n in ordinals :: data[n + 1]
  }

  /** The two variants' lookups: scoring answer i by the rule at ordinal i + 1
      is scoring it by ordinal i in the key renumbered one lower. */
  lemma LookupShift(scored: seq<Answer>, data: map<int, Question>)
    ensures SubtraitScores(scored, data, 1) == SubtraitScores(scored, ShiftDown(data), 0)
  {
    SameRulesSameScores(scored, data, 1, ShiftDown(data), 0);
  }

  /** `string(k[0])`: the trait letter a sub-trait name belongs to. */
  function Letter(name: string): (letter: string)
    requires name != ""
    ensures |letter| == 1 && letter[0] == name[0]
  {
    [name[0]]
  }

  predicate HasLetter(name: string, letter: string)
  {
    name != "" && Letter(name) == letter
  }

  /** The trait letters of a set of sub-trait names. */
  ghost function LettersOf(names: set<string>): set<string>
  {
    set name | name in names && name != "" :: Letter(name)
  }

  /** Sum of the raw scores of the sub-traits in `names` whose name starts
      with `letter`, in no particular order. */
  ghost function RawSum(subs: map<string, Trait>, names: set<string>, letter: string): int
    requires names <= subs.Keys
  {
    if names == {} then 0
    else
      var name :| name in names;
      (if HasLetter(name, letter) then subs[name].rawScore else 0) + RawSum(subs, names - {name}, letter)
  }

  /** The sum does not depend on which name is taken out first. */
  lemma {:induction false} RawSumRemove(subs: map<string, Trait>, names: set<string>, letter: string, name: string)
    requires names <= subs.Keys && name in names
    ensures RawSum(subs, names, letter) ==
              (if HasLetter(name, letter) then subs[name].rawScore else 0) + RawSum(subs, names - {name}, letter)
    decreases names
  {
    var other :| other in names && RawSum(subs, names, letter) ==
      (if HasLetter(other, letter) then subs[other].rawScore else 0) + RawSum(subs, names - {other}, letter);
    if other != name {
      RawSumRemove(subs, names - {other}, letter, name);
      RawSumRemove(subs, names - {name}, letter, other);
      assert names - {other} - {name} == names - {name} - {other};
    }
  }

  /** With no sub-trait of that letter among `names` there is nothing to add. */
  lemma {:induction false} RawSumNone(subs: map<string, Trait>, names: set<string>, letter: string)
    requires names <= subs.Keys
    requires letter !in LettersOf(names)
    ensures RawSum(subs, names, letter) == 0
    decreases names
  {
    if names != {} {
      var name :| name in names;
      RawSumRemove(subs, names, letter, name);
      assert LettersOf(names - {name}) <= LettersOf(names);
      RawSumNone(subs, names - {name}, letter);
    }
  }

  /** The traits rolled up from the sub-traits in `names`: one per letter,
      with the summed raw score, a zero normal score and the letter's floor. */
  ghost function TraitsOver(subs: map<string, Trait>, names: set<string>): map<string, Trait>
    requires names <= subs.Keys
  {
    map letter | letter in LettersOf(names) :: Trait(letter, RawSum(subs, names, letter), 0.0, GetMin(letter))
  }

  /** The traits rolled up from all sub-traits. */
  ghost function TraitScores(subs: map<string, Trait>): map<string, Trait>
  {
    TraitsOver(subs, subs.Keys)
  }

  /** Folding one more sub-trait into the roll-up: its letter's trait gains
      its raw score, or is created with it; every other trait is unchanged. */
  lemma TraitsOverInsert(subs: map<string, Trait>, names: set<string>, name: string)
    requires names <= subs.Keys && name in subs && name !in names && name != ""
    ensures var traits := TraitsOver(subs, names);
            var letter := Letter(name);
            TraitsOver(subs, names + {name}) ==
              if letter in traits then traits[letter := traits[letter].(rawScore := traits[letter].rawScore + subs[name].rawScore)]
              else traits[letter := Trait(letter, subs[name].rawScore, 0.0, GetMin(letter))]
  {
    var letter := Letter(name);
    var bigger := names + {name};
    var traits := TraitsOver(subs, names);
    var grown := TraitsOver(subs, bigger);
    var expected :=
      if letter in traits then traits[letter := traits[letter].(rawScore := traits[letter].rawScore + subs[name].rawScore)]
      else traits[letter := Trait(letter, subs[name].rawScore, 0.0, GetMin(letter))];
    assert LettersOf(bigger) == LettersOf(names) + {letter};
    assert grown.Keys == expected.Keys;
    forall l | l in grown
      ensures grown[l] == expected[l]
    {
      RawSumInsert(subs, names, name, l);
      if l == letter && letter !in traits {
        RawSumNone(subs, names, letter);
      }
    }
  }

  /** Adding one name to the set adds its raw score to its own letter's sum. */
  lemma RawSumInsert(subs: map<string, Trait>, names: set<string>, name: string, letter: string)
    requires names <= subs.Keys && name in subs && name !in names
    ensures RawSum(subs, names + {name}, letter) ==
              RawSum(subs, names, letter) + (if HasLetter(name, letter) then subs[name].rawScore else 0)
  {
    RawSumRemove(subs, names + {name}, letter, name);
    assert names + {name} - {name} == names;
  }

  /** A trait's raw score is the sum over the sub-traits it rolls up,
      whichever order they are visited in. */
  lemma TraitRawScoreExample()
    ensures var subs := map["E1" := Trait("E1", 5, 0.0, 3), "E2" := Trait("E2", 3, 0.0, 3)];
            TraitScores(subs) == map["E" := Trait("E", 8, 0.0, 6)]
  {
    var subs := map["E1" := Trait("E1", 5, 0.0, 3), "E2" := Trait("E2", 3, 0.0, 3)];
    TraitsOverInsert(subs, {}, "E1");
    TraitsOverInsert(subs, {"E1"}, "E2");
    assert {"E1"} + {"E2"} == subs.Keys;
    assert LettersOf({}) == {};
  }

  /** `getMin`: a trait letter's floor, 0 for letters outside the table. */
  function GetMin(letter: string): (floor: int)
    ensures letter == "A" ==> floor == -66
    ensures letter == "C" ==> floor == -36
    ensures letter == "E" ==> floor == 6
    ensures letter == "N" ==> floor == -66
    ensures letter == "O" ==> floor == -78
    ensures letter !in {"A", "C", "E", "N", "O"} ==> floor == 0
  {
    match letter
    case "A" => -66
    case "C" => -36
    case "E" => 6
    case "N" => -66
    case "O" => -78
    case _ => 0
  }

  /** `math.RoundToEven`: the nearest integer, ties going to the even one. */
  function RoundHalfEven(x: real): (r: int)
    ensures x - 0.5 <= r as real <= x + 0.5
    ensures (r as real == x - 0.5 || r as real == x + 0.5) ==> r % 2 == 0
  {
    var below := x.Floor;
    var fraction := x - below as real;
    if fraction < 0.5 then below
    else if fraction > 0.5 then below + 1
    else if below % 2 == 0 then below
    else below + 1
  }

  /** RoundHalfEven is the only rounding with those two properties. */
  lemma RoundHalfEvenUnique(x: real, n: int)
    requires x - 0.5 <= n as real <= x + 0.5
    requires (n as real == x - 0.5 || n as real == x + 0.5) ==> n % 2 == 0
    ensures n == RoundHalfEven(x)
  {
  }
}
