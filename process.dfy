/**
 * The process.go variant of the scoring pipeline: the same `User` as in
 * lionheart.go, except that the i-th scored answer is scored by the rule
 * for question i (not i + 1), sub-trait normal scores are not rounded, and
 * the trait scale `100 / 96` is a Go integer constant expression, so it is 1.
 */
module Process {
  import opened ScoringKey
  import opened Scores
  import Lionheart

  /** process.go looks up the rule for scored answer i at ordinal i. */
  const RuleOffset := 0

  /** `6.25 * (raw - min)`, not rounded: a score on the quarter-point grid. */
  function SubtraitNormal(rawScore: int, min: int): (score: real)
    ensures 4.0 * score == (4.0 * score).Floor as real
    ensures Lionheart.SubtraitNormal(rawScore, min) == RoundHalfEven(score) as real
  {
    var quarters := 25 * (rawScore - min);
    assert 6.25 * (rawScore - min) as real == quarters as real / 4.0;
    assert (quarters as real).Floor == quarters;
    6.25 * (rawScore - min) as real
  }

  /** `100 / 96` between two untyped integer constants is Go integer division. */
  const TraitScale: int := 100 / 96

  /** `(100 / 96) * (raw - min)`: the scale collapses to 1, so the normal
      score is just the distance from the floor. */
  function TraitNormal(rawScore: int, min: int): (score: real)
    ensures score == (rawScore - min) as real
  {
    (TraitScale * (rawScore - min)) as real
  }

  /** Unrounded sub-trait scores keep their quarter points. */
  lemma SubtraitNormalExamples()
    ensures SubtraitNormal(10, 6) == 25.0
    ensures SubtraitNormal(2, 0) == 12.5
    ensures SubtraitNormal(7, 0) == 43.75
  {
  }

  /** Raw score 30 over floor 6: real division would give (100/96) * 24 = 25,
      the integer scale gives 24. */
  lemma TraitScaleCounterexample()
    ensures TraitNormal(30, 6) == 24.0
    ensures (100.0 / 96.0) * (30 - 6) as real == 25.0
    ensures Lionheart.TraitNormal(30, 6) == 25.0
  {
    Lionheart.NormalExamples();
  }

  class User {
    var name: string
    var phone: string
    var email: string
    var subtraits: map<string, Trait>
    var traits: map<string, Trait>
    var data: map<int, Question>

    /** Every sub-trait is filed under its own non-empty name, so the trait
        roll-up can always take its first letter. */
    ghost predicate Valid()
      reads this
    {
      WellFormedSubtraits(subtraits)
    }

    /** The zero `User`. */
    constructor ()
      ensures Valid()
      ensures name == "" && phone == "" && email == ""
      ensures subtraits == map[] && traits == map[] && data == map[]
    {
      name, phone, email := "", "", "";
      subtraits, traits, data := map[], map[], map[];
    }

    /** `LoadQuestionsFromFile`, over the lines already read from the key
        file: the key becomes the rules of the lines, each under its number. */
    method LoadQuestionsFromFile(lines: seq<string>)
      requires AllWellFormed(lines)
      modifies this`data
      ensures data == Load(lines)
    {
      var loaded: map<int, Question> := map[];
      for i := 0 to |lines|
        invariant AllWellFormed(lines[..i])
        invariant loaded == Load(lines[..i])
      {
        assert lines[..i + 1][..i] == lines[..i];
        var q := ParseLine(lines[i]);
        loaded := loaded[q.number := q];
      }
      assert lines[..|lines|] == lines;
      data := loaded;
    }

    /**
     * `ProcessSubtraits`: a payload that fails to decode changes nothing;
     * otherwise the identity answers fill in name, email and phone, and the
     * sub-traits are replaced by the scores of the remaining answers.
     */
    method ProcessSubtraits(payload: Payload)
      requires Valid()
      requires payload.Decoded? ==> |payload.answers| >= IdentityAnswers
      modifies this`name, this`email, this`phone, this`subtraits
      ensures Valid()
      ensures payload.Malformed? ==>
                name == old(name) && email == old(email) && phone == old(phone) && subtraits == old(subtraits)
      ensures payload.Decoded? ==>
                && name == payload.answers[0].text
                && email == payload.answers[1].email
                && phone == payload.answers[2].phone
                && subtraits == SubtraitScores(payload.answers[IdentityAnswers..], data, RuleOffset)
    {
      if payload.Malformed? {
        return;
      }
      var answers := payload.answers;
      name := answers[0].text;
      email := answers[1].email;
      phone := answers[2].phone;
      var scored := answers[IdentityAnswers..];
      var subs: map<string, Trait> := map[];
      for i := 0 to |scored|
        invariant subs == SubtraitScores(scored[..i], data, RuleOffset)
      {
        assert scored[..i + 1][..i] == scored[..i];
        var entry := RuleAt(data, i + RuleOffset);
        if entry.traitName == "" {
          continue;
        }
        if entry.traitName in subs {
          var sub := subs[entry.traitName];
          subs := subs[entry.traitName := sub.(rawScore := sub.rawScore + entry.key * scored[i].number)];
        } else {
          subs := subs[entry.traitName := Trait(entry.traitName, entry.key * scored[i].number, 0.0, entry.min)];
        }
      }
      assert scored[..|scored|] == scored;
      subtraits := subs;
    }

    /** `NormalizeSubtraits`: every sub-trait's normal score is set from its
        raw score and floor; nothing else changes. */
    method NormalizeSubtraits()
      requires Valid()
      modifies this`subtraits
      ensures Valid()
      ensures subtraits.Keys == old(subtraits).Keys
      ensures forall k :: k in subtraits ==>
                subtraits[k] == old(subtraits)[k].(normalScore := SubtraitNormal(old(subtraits)[k].rawScore, old(subtraits)[k].min))
    {
      var remaining := subtraits.Keys;
      while remaining != {}
        invariant remaining <= subtraits.Keys == old(subtraits).Keys
        invariant forall k :: k in remaining ==> subtraits[k] == old(subtraits)[k]
        invariant forall k :: k in subtraits && k !in remaining ==>
                    subtraits[k] == old(subtraits)[k].(normalScore := SubtraitNormal(old(subtraits)[k].rawScore, old(subtraits)[k].min))
        decreases remaining
      {
        var k :| k in remaining;
        var v := subtraits[k];
        subtraits := subtraits[k := v.(normalScore := SubtraitNormal(v.rawScore, v.min))];
        remaining := remaining - {k};
      }
    }

    /** `ProcessTraits`: the traits become the roll-up of the sub-traits by
        first letter, visited in any order. */
    method ProcessTraits()
      requires Valid()
      modifies this`traits
      ensures traits == TraitScores(subtraits)
    {
      var rolled: map<string, Trait> := map[];
      var remaining := subtraits.Keys;
      while remaining != {}
        invariant remaining <= subtraits.Keys
        invariant rolled == TraitsOver(subtraits, subtraits.Keys - remaining)
        decreases remaining
      {
        var k :| k in remaining;
        TraitsOverInsert(subtraits, subtraits.Keys - remaining, k);
        assert subtraits.Keys - (remaining - {k}) == (subtraits.Keys - remaining) + {k};
        var letter := Letter(k);
        var v := subtraits[k];
        if letter in rolled {
          rolled := rolled[letter := rolled[letter].(rawScore := rolled[letter].rawScore + v.rawScore)];
        } else {
          rolled := rolled[letter := Trait(letter, v.rawScore, 0.0, GetMin(letter))];
        }
        remaining := remaining - {k};
      }
      assert subtraits.Keys - remaining == subtraits.Keys;
      traits := rolled;
    }

    /** `NormalizeTraits`: every trait's normal score is set from its raw
        score and floor; nothing else changes. */
    method NormalizeTraits()
      modifies this`traits
      ensures traits.Keys == old(traits).Keys
      ensures forall k :: k in traits ==>
                traits[k] == old(traits)[k].(normalScore := TraitNormal(old(traits)[k].rawScore, old(traits)[k].min))
    {
      var remaining := traits.Keys;
      while remaining != {}
        invariant remaining <= traits.Keys == old(traits).Keys
        invariant forall k :: k in remaining ==> traits[k] == old(traits)[k]
        invariant forall k :: k in traits && k !in remaining ==>
                    traits[k] == old(traits)[k].(normalScore := TraitNormal(old(traits)[k].rawScore, old(traits)[k].min))
        decreases remaining
      {
        var k :| k in remaining;
        var v := traits[k];
        traits := traits[k := v.(normalScore := TraitNormal(v.rawScore, v.min))];
        remaining := remaining - {k};
      }
    }
  }
}
