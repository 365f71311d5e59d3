/**
 * The field value synthesizer, `generate_random_data`: one value per schema
 * field, chosen by the field's declared type tag, with the "tps" field
 * overridden by the current time.
 *
 * The clock, `random` and Faker are oracles: while the field at position i is
 * generated they answer with `faker(i)`, a `Draw`.
 */
module Synthesis {
  import opened Wrappers
  import opened Errors
  import opened OrderedDict

  /** `s.startswith(p)` */
  predicate StartsWith(s: string, p: string): (b: bool)
    ensures b <==> |p| <= |s| && forall i :: 0 <= i < |p| ==> s[i] == p[i]
  {
    |p| <= |s| && s[..|p|] == p
  }

  /** The branch of the dispatch a supported tag selects. */
  datatype Kind = WordKind | IntegerKind | FloatKind | BooleanKind | DateKind | TimestampKind | JsonKind

  /** None of the exactly matched tags starts with "VARCHAR" or "TEXT". */
  lemma ExactTagsArePlain(dtype: string)
    ensures dtype in {"INTEGER", "FLOAT", "BOOLEAN", "DATE", "TIMESTAMP", "JSON", "JSONB"}
            ==> !StartsWith(dtype, "VARCHAR") && !StartsWith(dtype, "TEXT")
  {
    if dtype in {"INTEGER", "FLOAT", "BOOLEAN", "DATE", "TIMESTAMP", "JSON", "JSONB"} {
      assert dtype[0] != 'V';
      assert dtype[0] != 'T' || dtype[1] != 'E';
    }
  }

  /** The branch a declared tag selects, or None for a tag that raises. */
  function Classify(dtype: string): (k: Option<Kind>)
    ensures k == Some(WordKind) <==> StartsWith(dtype, "VARCHAR") || StartsWith(dtype, "TEXT")
    ensures k == Some(IntegerKind) <==> dtype == "INTEGER"
    ensures k == Some(FloatKind) <==> dtype == "FLOAT"
    ensures k == Some(BooleanKind) <==> dtype == "BOOLEAN"
    ensures k == Some(DateKind) <==> dtype == "DATE"
    ensures k == Some(TimestampKind) <==> dtype == "TIMESTAMP"
    ensures k == Some(JsonKind) <==> dtype == "JSON" || dtype == "JSONB"
  {
    ExactTagsArePlain(dtype);
    if StartsWith(dtype, "VARCHAR") || StartsWith(dtype, "TEXT") then Some(WordKind)
    else if dtype == "INTEGER" then Some(IntegerKind)
    else if dtype == "FLOAT" then Some(FloatKind)
    else if dtype == "BOOLEAN" then Some(BooleanKind)
    else if dtype == "DATE" then Some(DateKind)
    else if dtype == "TIMESTAMP" then Some(TimestampKind)
    else if dtype == "JSON" || dtype == "JSONB" then Some(JsonKind)
    else None
  }

  /** What the clock, `random` and Faker answer while one field is generated. */
  datatype Draw = Draw(
    now: string,        // datetime.now() formatted as "%Y-%m-%d %H:%M:%S"
    entropy: int,       // the raw draw behind randint, uniform and choice
    word: string,       // faker.word(), also the "key" column of faker.json
    otherWord: string,  // the "value" column of faker.json
    date: string,       // faker.date()
    dateTime: string)   // faker.date_time()

  type Oracle = nat -> Draw

  /** A generated value, tagged by the branch that produced it. */
  datatype Value =
    | Stamp(stamp: string)
    | Word(word: string)
    | Integer(n: int)
    | Float(hundredths: int)
    | Boolean(b: bool)
    | Date(date: string)
    | DateTime(dateTime: string)
    | Json(key: string, value: string)

  /** A Python dict from field name to its declared type tag: names are distinct. */
  type Schema = s: seq<(string, string)> | DistinctKeys(s)

  /** The generated dict, in insertion order. */
  type Record = seq<(string, Value)>

  /** `random.randint(lo, hi)` given the raw draw `e`. */
  function RandInt(lo: int, hi: int, e: int): (r: int)
    requires lo <= hi
    ensures lo <= r <= hi
  {
    lo + e % (hi - lo + 1)
  }

  /** Every value of the range is the answer to some draw. */
  lemma RandIntCovers(lo: int, hi: int, v: int)
    requires lo <= v <= hi
    ensures RandInt(lo, hi, v - lo) == v
  {
  }

  /** `round(random.uniform(1, 100), 2)`, in hundredths. */
  function RoundedUniform(e: int): (r: int)
    ensures 100 <= r <= 10000
  {
    RandInt(100, 10000, e)
  }

  /** `random.choice([True, False])` given the raw draw `e`. */
  function Choice(e: int): (b: bool)
    ensures b <==> e % 2 == 0
  {
    [true, false][e % 2]
  }

  /** Both booleans are the answer to some draw. */
  lemma ChoiceCovers(b: bool)
    ensures Choice(if b then 0 else 1) == b
  {
  }

  /** The branch that produced a value; None for the "tps" stamp. */
  function KindOf(v: Value): Option<Kind> {
    match v
    case Stamp(_) => None
    case Word(_) => Some(WordKind)
    case Integer(_) => Some(IntegerKind)
    case Float(_) => Some(FloatKind)
    case Boolean(_) => Some(BooleanKind)
    case Date(_) => Some(DateKind)
    case DateTime(_) => Some(TimestampKind)
    case Json(_, _) => Some(JsonKind)
  }

  /** The value one branch of the dispatch produces from the oracle's answers. */
  function Generate(k: Kind, d: Draw): (v: Value)
    ensures KindOf(v) == Some(k)
    ensures v.Integer? ==> 1 <= v.n <= 100
    ensures v.Float? ==> 100 <= v.hundredths <= 10000
  {
    match k
    case WordKind => Word(d.word)
    case IntegerKind => Integer(RandInt(1, 100, d.entropy))
    case FloatKind => Float(RoundedUniform(d.entropy))
    case BooleanKind => Boolean(Choice(d.entropy))
    case DateKind => Date(d.date)
    case TimestampKind => DateTime(d.dateTime)
    case JsonKind => Json(d.word, d.otherWord)
  }

  /** A field whose generation raises: not "tps" and an unsupported tag. */
  predicate Rejects(field: (string, string)) {
    field.0 != "tps" && Classify(field.1).None?
  }

  /** The value stored for one field, or None when the field raises. */
  function FieldValue(field: (string, string), d: Draw): (r: Option<Value>)
    ensures r.None? <==> Rejects(field)
    ensures field.0 == "tps" ==> r == Some(Stamp(d.now))
    ensures field.0 != "tps" && r.Some? ==> KindOf(r.value) == Classify(field.1)
    ensures r.Some? && r.value.Integer? ==> 1 <= r.value.n <= 100
    ensures r.Some? && r.value.Float? ==> 100 <= r.value.hundredths <= 10000
  {
    if field.0 == "tps" then Some(Stamp(d.now))
    else match Classify(field.1)
      case None => None
      case Some(k) => Some(Generate(k, d))
  }

  /** The position of the first field that raises, if any. */
  function FirstRejected(fields: seq<(string, string)>): (r: Option<nat>)
    ensures r.None? <==> forall j :: 0 <= j < |fields| ==> !Rejects(fields[j])
    ensures r.Some? ==> r.value < |fields| && Rejects(fields[r.value])
    ensures r.Some? ==> forall j :: 0 <= j < r.value ==> !Rejects(fields[j])
  {
    if |fields| == 0 then None
    else if Rejects(fields[0]) then Some(0)
    else match FirstRejected(fields[1..])
      case None => None
      case Some(i) => Some(i + 1)
  }

  /** The entries generated for the first n fields, none of which raises. */
  function Generated(fields: seq<(string, string)>, faker: Oracle, n: nat): (data: Record)
    requires n <= |fields|
    requires forall j :: 0 <= j < n ==> !Rejects(fields[j])
  {
    seq(n, j requires 0 <= j < n => (fields[j].0, FieldValue(fields[j], faker(j)).value))
  }

  /** Generating one more field appends exactly its entry. */
  lemma GeneratedSnoc(fields: seq<(string, string)>, faker: Oracle, n: nat)
    requires n < |fields|
    requires forall j :: 0 <= j <= n ==> !Rejects(fields[j])
    ensures Generated(fields, faker, n + 1)
         == Generated(fields, faker, n) + [(fields[n].0, FieldValue(fields[n], faker(n)).value)]
  {
  }

  /** The entries generated so far carry the names of the fields generated so far. */
  lemma GeneratedKeys(fields: Schema, faker: Oracle, n: nat)
    requires n < |fields|
    requires forall j :: 0 <= j < n ==> !Rejects(fields[j])
    ensures Keys(Generated(fields, faker, n)) == Keys(fields[..n])
    ensures fields[n].0 !in Keys(Generated(fields, faker, n))
  {
    var ks := Keys(Generated(fields, faker, n));
    forall j | 0 <= j < n ensures ks[j] != fields[n].0 {
      assert fields[j].0 != fields[n].0;
    }
    assert ks == Keys(fields[..n]);
  }

  /** What `generate_random_data` computes, stated declaratively: the first field that raises
      decides the error; otherwise every field gets its value, in schema order. */
  function Synthesize(fields: Schema, faker: Oracle): (r: Result<Record, Error>)
    ensures r.Failure? <==> exists i :: 0 <= i < |fields| && Rejects(fields[i])
    ensures r.Failure? ==> r.error.UnsupportedDataType?
    ensures r.Success? ==> |r.value| == |fields| && forall i :: 0 <= i < |fields| ==> r.value[i].0 == fields[i].0
  {
    match FirstRejected(fields)
    case Some(i) => Failure(UnsupportedDataType(fields[i].1))
    case None => Success(Generated(fields, faker, |fields|))
  }

  /** The `if`/`elif` chain on a tag, written out as the loop runs it: the value
      it stores, or None where it raises. It agrees with `Generate` of `Classify`;
      it is a method of its own so that the loop's proof stays small. */
  method DispatchTag(dtype: string, d: Draw) returns (v: Option<Value>)
    ensures v.None? <==> Classify(dtype).None?
    ensures v.Some? ==> v.value == Generate(Classify(dtype).value, d)
  {
    if StartsWith(dtype, "VARCHAR") || StartsWith(dtype, "TEXT") {
      v := Some(Word(d.word));
    } else if dtype == "INTEGER" {
      v := Some(Integer(RandInt(1, 100, d.entropy)));
    } else if dtype == "FLOAT" {
      v := Some(Float(RoundedUniform(d.entropy)));
    } else if dtype == "BOOLEAN" {
      v := Some(Boolean(Choice(d.entropy)));
    } else if dtype == "DATE" {
      v := Some(Date(d.date));
    } else if dtype == "TIMESTAMP" {
      v := Some(DateTime(d.dateTime));
    } else if dtype == "JSON" || dtype == "JSONB" {
      v := Some(Json(d.word, d.otherWord));
    } else {
      v := None;
    }
  }

  /** `generate_random_data(fields, faker)`: fills the dict field by field. */
  method GenerateRandomData(fields: Schema, faker: Oracle) returns (r: Result<Record, Error>)
    ensures r == Synthesize(fields, faker)
  {
    var data: Record := [];
    var i := 0;
    while i < |fields|
      invariant 0 <= i <= |fields|
      invariant forall j :: 0 <= j < i ==> !Rejects(fields[j])
      invariant data == Generated(fields, faker, i)
    {
      var (field, dtype) := fields[i];
      var d := faker(i);
      GeneratedKeys(fields, faker, i);
      if field == "tps" {
        data := Put(data, field, Stamp(d.now));
        GeneratedSnoc(fields, faker, i);
        i := i + 1;
        continue;
      }
      var v := DispatchTag(dtype, d);
      if v.None? {
        return Failure(UnsupportedDataType(dtype));
      }
      data := Put(data, field, v.value);
      GeneratedSnoc(fields, faker, i);
      i := i + 1;
    }
    return Success(data);
  }

  /** On success the record holds exactly the schema's field names, in schema
      order, each once: the "tps" override replaces a value and adds no field. */
  lemma {:induction false} SynthesizeKeys(fields: Schema, faker: Oracle)
    requires Synthesize(fields, faker).Success?
    ensures Keys(Synthesize(fields, faker).value) == Keys(fields)
    ensures DistinctKeys(Synthesize(fields, faker).value)
  {
    var data := Synthesize(fields, faker).value;
    forall j | 0 <= j < |fields| ensures Keys(data)[j] == Keys(fields)[j] {
      assert data[j].0 == fields[j].0;
    }
  }

  /** The call raises exactly when some field other than "tps" has an
      unsupported tag, and the error names the tag of the first such field. */
  lemma SynthesizeFails(fields: Schema, faker: Oracle)
    ensures Synthesize(fields, faker).Failure? <==> exists i :: 0 <= i < |fields| && Rejects(fields[i])
    ensures Synthesize(fields, faker).Failure? ==>
      exists i :: 0 <= i < |fields| && Rejects(fields[i]) && (forall j :: 0 <= j < i ==> !Rejects(fields[j]))
        && Synthesize(fields, faker).error == UnsupportedDataType(fields[i].1)
  {
  }

  /** The i-th entry of a generated record: the i-th field's name and its value. */
  lemma SynthesizedEntry(fields: Schema, faker: Oracle, i: nat)
    requires Synthesize(fields, faker).Success? && i < |fields|
    ensures Synthesize(fields, faker).value[i] == (fields[i].0, FieldValue(fields[i], faker(i)).value)
  {
    assert FirstRejected(fields).None?;
  }

  /** What each entry of a generated record holds, by the field's name and tag. */
  lemma SynthesizeValues(fields: Schema, faker: Oracle, i: nat)
    requires Synthesize(fields, faker).Success? && i < |fields|
    ensures Synthesize(fields, faker).value[i].0 == fields[i].0
    ensures fields[i].0 == "tps" ==> Synthesize(fields, faker).value[i].1 == Stamp(faker(i).now)
    ensures fields[i].0 != "tps" ==> KindOf(Synthesize(fields, faker).value[i].1) == Classify(fields[i].1)
    ensures Synthesize(fields, faker).value[i].1 == FieldValue(fields[i], faker(i)).value
  {
    SynthesizedEntry(fields, faker, i);
  }

  /** Every "INTEGER" field not named "tps" holds an integer in [1, 100]. */
  lemma IntegerFieldsInRange(fields: Schema, faker: Oracle, i: nat)
    requires Synthesize(fields, faker).Success? && i < |fields|
    requires fields[i].0 != "tps" && fields[i].1 == "INTEGER"
    ensures Synthesize(fields, faker).value[i].1.Integer?
    ensures 1 <= Synthesize(fields, faker).value[i].1.n <= 100
  {
    SynthesizeValues(fields, faker, i);
  }

  /** Every "BOOLEAN" field not named "tps" holds a boolean, every such "FLOAT"
      field a value in [1.00, 100.00] with two decimals. */
  lemma BooleanAndFloatFields(fields: Schema, faker: Oracle, i: nat)
    requires Synthesize(fields, faker).Success? && i < |fields| && fields[i].0 != "tps"
    ensures fields[i].1 == "BOOLEAN" ==> Synthesize(fields, faker).value[i].1.Boolean?
    ensures fields[i].1 == "FLOAT" ==>
      Synthesize(fields, faker).value[i].1.Float? && 100 <= Synthesize(fields, faker).value[i].1.hundredths <= 10000
  {
    SynthesizeValues(fields, faker, i);
  }

  /** Only whether each field raises decides where the first raising field is. */
  lemma {:induction false} FirstRejectedAgrees(a: seq<(string, string)>, b: seq<(string, string)>)
    requires |a| == |b|
    requires forall j :: 0 <= j < |a| ==> Rejects(a[j]) == Rejects(b[j])
    ensures FirstRejected(a) == FirstRejected(b)
  {
    if |a| > 0 && !Rejects(a[0]) {
      FirstRejectedAgrees(a[1..], b[1..]);
    }
  }

  /** The tag declared for "tps" is never inspected: replacing it, even by an
      unsupported one, changes nothing. */
  lemma TpsTagIgnored(fields: Schema, faker: Oracle, i: nat, tag: string)
    requires i < |fields| && fields[i].0 == "tps"
    ensures Synthesize(fields[i := ("tps", tag)], faker) == Synthesize(fields, faker)
  {
    var other: Schema := fields[i := ("tps", tag)];
    FirstRejectedAgrees(other, fields);
    if FirstRejected(fields).None? {
      forall j | 0 <= j < |fields|
        ensures Generated(other, faker, |fields|)[j] == Generated(fields, faker, |fields|)[j]
      {
        assert FieldValue(other[j], faker(j)) == FieldValue(fields[j], faker(j));
        assert Generated(other, faker, |fields|)[j] == (other[j].0, FieldValue(other[j], faker(j)).value);
        assert Generated(fields, faker, |fields|)[j] == (fields[j].0, FieldValue(fields[j], faker(j)).value);
      }
      assert Generated(other, faker, |fields|) == Generated(fields, faker, |fields|);
    }
  }

  /** A schema of `main`'s shape: a word column, two JSON columns and the "tps"
      stamp, under any three other distinct names. */
  lemma {:induction false} WordJsonJsonStamp(a: string, b: string, c: string, faker: Oracle)
    requires a != b && a != c && b != c && a != "tps" && b != "tps" && c != "tps"
    ensures Synthesize([(a, "VARCHAR"), (b, "JSON"), (c, "JSON"), ("tps", "TIMESTAMP")], faker)
         == Success([(a, Word(faker(0).word)), (b, Json(faker(1).word, faker(1).otherWord)),
                     (c, Json(faker(2).word, faker(2).otherWord)), ("tps", Stamp(faker(3).now))])
  {
    var fields: Schema := [(a, "VARCHAR"), (b, "JSON"), (c, "JSON"), ("tps", "TIMESTAMP")];
    ShapeValues(a, faker(0));
    ShapeValues(b, faker(1));
    ShapeValues(c, faker(2));
    ShapeValues(a, faker(3));
    assert forall j :: 0 <= j < 4 ==> !Rejects(fields[j]);
    var data := Synthesize(fields, faker).value;
    SynthesizedEntry(fields, faker, 0);
    SynthesizedEntry(fields, faker, 1);
    SynthesizedEntry(fields, faker, 2);
    SynthesizedEntry(fields, faker, 3);
    assert data == [(a, Word(faker(0).word)), (b, Json(faker(1).word, faker(1).otherWord)),
                    (c, Json(faker(2).word, faker(2).otherWord)), ("tps", Stamp(faker(3).now))];
  }

  /** The values the tags of `main`'s schema give, from one draw. */
  lemma ShapeValues(a: string, d: Draw)
    requires a != "tps"
    ensures FieldValue((a, "VARCHAR"), d) == Some(Word(d.word))
    ensures FieldValue((a, "JSON"), d) == Some(Json(d.word, d.otherWord))
    ensures FieldValue(("tps", "TIMESTAMP"), d) == Some(Stamp(d.now))
  {
    ExampleTags();
  }

  /** The schema `main` configures: a word, two JSON rows and the "tps" stamp. */
  lemma MainSchema(faker: Oracle)
    ensures Synthesize([("transaction_type", "VARCHAR"), ("data_origin", "JSON"),
                        ("data_destination", "JSON"), ("tps", "TIMESTAMP")], faker)
         == Success([("transaction_type", Word(faker(0).word)),
                     ("data_origin", Json(faker(1).word, faker(1).otherWord)),
                     ("data_destination", Json(faker(2).word, faker(2).otherWord)),
                     ("tps", Stamp(faker(3).now))])
  {
    WordJsonJsonStamp("transaction_type", "data_origin", "data_destination", faker);
  }

  /** How the tags used by the examples below classify. */
  lemma ExampleTags()
    ensures Classify("VARCHAR") == Some(WordKind)
    ensures Classify("JSON") == Some(JsonKind)
    ensures Classify("TIMESTAMP") == Some(TimestampKind)
    ensures Classify("ENUM") == None
  {
    assert StartsWith("VARCHAR", "VARCHAR");
    assert "ENUM"[0] == 'E';
  }

  /** Prefix matching for the word tags, exact matching for the others. */
  lemma TagExamples()
    ensures Classify("VARCHAR(50)") == Some(WordKind)
    ensures Classify("TEXT") == Some(WordKind)
    ensures Classify("TEXTUAL") == Some(WordKind)
    ensures Classify("JSONB") == Some(JsonKind)
    ensures Classify("JSON(1)") == None
    ensures Classify("ENUM") == None
    ensures Classify("integer") == None
  {
    assert StartsWith("VARCHAR(50)", "VARCHAR");
    assert StartsWith("TEXT", "TEXT");
    assert StartsWith("TEXTUAL", "TEXT");
    assert "JSON(1)"[0] == 'J';
    assert "integer"[0] == 'i';
  }

  /** An unsupported tag raises and yields no record; on "tps" it does not. */
  lemma EnumExamples(faker: Oracle)
    ensures Synthesize([("name", "VARCHAR"), ("kind", "ENUM")], faker) == Failure(UnsupportedDataType("ENUM"))
    ensures Synthesize([("tps", "ENUM")], faker) == Success([("tps", Stamp(faker(0).now))])
  {
    var bad: Schema := [("name", "VARCHAR"), ("kind", "ENUM")];
    ExampleTags();
    assert Rejects(bad[1]);
    assert FirstRejected(bad) == Some(1);
    var stamp: Schema := [("tps", "ENUM")];
    assert !Rejects(stamp[0]);
    SynthesizedEntry(stamp, faker, 0);
    assert Synthesize(stamp, faker).value == [("tps", Stamp(faker(0).now))];
  }
}
