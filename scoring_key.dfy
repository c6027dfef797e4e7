/**
 * The scoring key: one rule per line of the key file, in the form
 * `number|description|key|trait|min`, collected into a map from question
 * number to rule. Both variants (lionheart.go and process.go) parse key
 * lines identically.
 */
module ScoringKey {
  import opened Text

  /** One scoring rule: the answer to question `number` is weighted by `key`
      and counts towards the sub-trait `traitName`, whose floor is `min`. */
  datatype Question = Question(number: int, description: string, key: int, traitName: string, min: int)

  const FieldSeparator := '|'

  /** A key line with at least the five fields the loader indexes; shorter
      lines make the loader index out of range. */
  predicate WellFormedLine(line: string)
  {
    |Split(line, FieldSeparator)| >= 5
  }

  predicate AllWellFormed(lines: seq<string>)
  {
    forall i :: 0 <= i < |lines| ==> WellFormedLine(lines[i])
  }

  /**
   * The body of the loader's loop for one line: split on '|', read the three
   * numeric fields with `Atoi` (a field that does not parse reads as 0),
   * keep the description and trait text verbatim. Fields past the fifth are
   * ignored.
   */
  function ParseLine(line: string): (q: Question)
    requires WellFormedLine(line)
    ensures FieldSeparator !in q.description && FieldSeparator !in q.traitName
    ensures !IsDecimal(Split(line, FieldSeparator)[0]) ==> q.number == 0
    ensures !IsDecimal(Split(line, FieldSeparator)[2]) ==> q.key == 0
    ensures !IsDecimal(Split(line, FieldSeparator)[4]) ==> q.min == 0
  {
    var fields := Split(line, FieldSeparator);
    Question(Atoi(fields[0]), fields[1], Atoi(fields[2]), fields[3], Atoi(fields[4]))
  }

  /** The key line that describes `q`, as the key file writes it. */
  function FormatLine(q: Question): string
  {
    Join([Itoa(q.number), q.description, Itoa(q.key), q.traitName, Itoa(q.min)], FieldSeparator)
  }

  /** Parsing is exact: a line written from a rule whose text fields hold no
      '|' parses back to that rule. */
  lemma ParseFormatLine(q: Question)
    requires FieldSeparator !in q.description && FieldSeparator !in q.traitName
    ensures WellFormedLine(FormatLine(q))
    ensures ParseLine(FormatLine(q)) == q
  {
    var fields := [Itoa(q.number), q.description, Itoa(q.key), q.traitName, Itoa(q.min)];
    ItoaAvoids(q.number, FieldSeparator);
    ItoaAvoids(q.key, FieldSeparator);
    ItoaAvoids(q.min, FieldSeparator);
    SplitJoin(fields, FieldSeparator);
    AtoiItoa(q.number);
    AtoiItoa(q.key);
    AtoiItoa(q.min);
  }

  /** Anything after a fifth field is ignored. */
  lemma ExtraFieldsIgnored(line: string, extra: string)
    requires WellFormedLine(line)
    ensures WellFormedLine(line + [FieldSeparator] + extra)
    ensures ParseLine(line + [FieldSeparator] + extra) == ParseLine(line)
  {
    SplitAround(line, extra, FieldSeparator);
  }

  /**
   * The map the loader builds from the lines of the key file: each line's
   * rule is stored under its own number, so a later line with the same
   * number replaces the earlier one.
   */
  function Load(lines: seq<string>): (data: map<int, Question>)
    requires AllWellFormed(lines)
    ensures forall n :: n in data ==> data[n].number == n
  {
    if lines == [] then map[]
    else
      var q := ParseLine(lines[|lines| - 1]);
      Load(lines[..|lines| - 1])[q.number := q]
  }

  /** A number has an entry exactly when some line carries it. */
  lemma {:induction false} LoadKeys(lines: seq<string>, n: int)
    requires AllWellFormed(lines)
    ensures n in Load(lines) <==> exists i :: 0 <= i < |lines| && ParseLine(lines[i]).number == n
  {
    if n in Load(lines) {
      var i := LoadedFrom(lines, n);
    }
    if i :| 0 <= i < |lines| && ParseLine(lines[i]).number == n {
      LoadedFromLine(lines, i);
    }
  }

  lemma {:induction false} LoadedFrom(lines: seq<string>, n: int) returns (i: int)
    requires AllWellFormed(lines)
    requires n in Load(lines)
    ensures 0 <= i < |lines| && ParseLine(lines[i]).number == n
  {
    var init := lines[..|lines| - 1];
    if ParseLine(lines[|lines| - 1]).number == n {
      i := |lines| - 1;
    } else {
      assert AllWellFormed(init);
      i := LoadedFrom(init, n);
      assert init[i] == lines[i];
    }
  }

  lemma {:induction false} LoadedFromLine(lines: seq<string>, i: int)
    requires AllWellFormed(lines)
    requires 0 <= i < |lines|
    ensures ParseLine(lines[i]).number in Load(lines)
  {
    var init := lines[..|lines| - 1];
    if i < |lines| - 1 {
      assert AllWellFormed(init);
      LoadedFromLine(init, i);
      assert init[i] == lines[i];
    }
  }

  /** The entry for a number is the rule of the last line that carries it. */
  lemma {:induction false} LoadLastWins(lines: seq<string>, i: int)
    requires AllWellFormed(lines)
    requires 0 <= i < |lines|
    requires forall j :: i < j < |lines| ==> ParseLine(lines[j]).number != ParseLine(lines[i]).number
    ensures ParseLine(lines[i]).number in Load(lines)
    ensures Load(lines)[ParseLine(lines[i]).number] == ParseLine(lines[i])
  {
    var init := lines[..|lines| - 1];
    if i < |lines| - 1 {
      forall j | i < j < |init|
        ensures ParseLine(init[j]).number != ParseLine(init[i]).number
      {
        assert init[j] == lines[j];
      }
      LoadLastWins(init, i);
      assert init[i] == lines[i];
    }
  }

  /** Loading one more line changes only the entry under that line's number. */
  lemma LoadAppend(lines: seq<string>, line: string)
    requires AllWellFormed(lines) && WellFormedLine(line)
    ensures AllWellFormed(lines + [line])
    ensures Load(lines + [line]).Keys == Load(lines).Keys + {ParseLine(line).number}
    ensures forall n :: n in Load(lines) && n != ParseLine(line).number ==> Load(lines + [line])[n] == Load(lines)[n]
  {
    assert (lines + [line])[..|lines|] == lines;
  }
}
