/**
 * The struct-to-form encoder of the upstream API client
 * (pkg/gocache/client.go, the reflection walk inside `doRequest` and `Put`).
 *
 * Go reflection is replaced by an explicit description of the request value:
 * a struct is a sequence of field descriptors carrying the field's name, whether
 * it is exported, its `form` and `json` tags (the empty string when a tag is
 * absent, exactly as `reflect.StructTag.Get` reports it) and its value.
 */
module FormEncoder {
  import opened Wrappers
  import opened Text

  /** A form body: the `map[string]string` handed to resty's SetFormData. */
  type Form = map<string, string>

  /** The kinds of field value the encoder distinguishes. */
  datatype Value =
    | Str(s: string)
    | Int(i: int)
    | Uint(u: nat)
    | Bool(b: bool)
    | Slice(items: seq<Value>)
    /** Structs, maps, pointers, interfaces: kinds with no case in the encoder's switch. */
    | Composite

  datatype Field = Field(name: string, exported: bool, formTag: string, jsonTag: string, value: Value)

  /** The dynamic shape of the `body interface{}` argument. */
  datatype Body =
    | FormMap(form: Form)
    | Record(fields: seq<Field>)
    | Pointer(target: Body)
    /** Any other value: a string, a number, a nil interface, a nil pointer, ... */
    | Opaque

  datatype EncodeError = InvalidBodyKind

  /**
   * The form key of a field: the `form` tag if present, else the `json` tag up
   * to its first comma (dropping options such as `omitempty`), else the Go
   * field name. A tag without a comma is its own first piece, so it is taken
   * as it is.
   */
  function WireName(f: Field): (r: string)
    ensures f.formTag != "" ==> r == f.formTag
    ensures f.formTag == "" && f.jsonTag != "" ==>
              r <= f.jsonTag && ',' !in r && (|r| < |f.jsonTag| ==> f.jsonTag[|r|] == ',')
    ensures f.formTag == "" && f.jsonTag == "" ==> r == f.name
  {
    if f.formTag != "" then f.formTag
    else if f.jsonTag != "" then (if ',' in f.jsonTag then BeforeFirst(f.jsonTag, ',') else f.jsonTag)
    else f.name
  }

  /** Unexported fields and fields whose wire name is "-" are skipped whatever their value. */
  predicate Emitted(f: Field) {
    f.exported && WireName(f) != "-"
  }

  /** `strconv.FormatBool`. */
  function BoolText(b: bool): string {
    if b then "true" else "false"
  }

  /**
   * Reads form text back as a value of the same kind as `like`: the receiving
   * side's view of a rendered scalar.
   */
  function Decode(text: string, like: Value): Option<Value> {
    match like
    case Str(_) => Some(Str(text))
    case Int(_) => if IsNumeral(text) then Some(Int(ParseInt(text))) else None
    case Uint(_) => if |text| > 0 && AllDigits(text) then Some(Uint(ParseNat(text))) else None
    case Bool(_) =>
      if text == "true" then Some(Bool(true))
      else if text == "false" then Some(Bool(false))
      else None
    case _ => None
  }

  /**
   * The text of a scalar: strings verbatim, integers in base 10, booleans as
   * "true"/"false". Slices and composite values have no text.
   */
  function Render(v: Value): (r: Option<string>)
    ensures r.Some? <==> !v.Slice? && !v.Composite?
    ensures r.Some? ==> Decode(r.value, v) == Some(v)
  {
    match v
    case Str(s) => Some(s)
    case Int(i) => Some(FormatInt(i))
    case Uint(u) => Some(FormatNat(u))
    case Bool(b) => Some(BoolText(b))
    case _ => None
  }

  /** The key `name[j]` under which element `j` of a slice is sent. */
  function IndexedKey(name: string, j: nat): string {
    name + "[" + FormatNat(j) + "]"
  }

  /** Different indices give different keys, so slice elements never overwrite each other. */
  lemma IndexedKeyInjective(name: string, i: nat, j: nat)
    requires IndexedKey(name, i) == IndexedKey(name, j)
    ensures i == j
  {
    var a := FormatNat(i);
    var b := FormatNat(j);
    var ka := IndexedKey(name, i);
    var kb := IndexedKey(name, j);
    assert |a| == |b|;
    assert ka[|name| + 1..|name| + 1 + |a|] == a;
    assert kb[|name| + 1..|name| + 1 + |b|] == b;
  }

  lemma IndexedKeyShape(name: string, j: nat)
    ensures |IndexedKey(name, j)| >= |name| + 3
    ensures IndexedKey(name, j)[|IndexedKey(name, j)| - 1] == ']'
  {
  }

  /** The number of elements of `items` that have a text. */
  function CountRendered(items: seq<Value>): nat
    decreases |items|
  {
    if |items| == 0 then 0
    else CountRendered(items[..|items| - 1]) + (if Render(items[|items| - 1]).Some? then 1 else 0)
  }

  /** The keys `name[0]` ... `name[n-1]`. */
  function IndexedKeys(name: string, n: nat): set<string>
    decreases n
  {
    if n == 0 then {} else IndexedKeys(name, n - 1) + {IndexedKey(name, n - 1)}
  }

  lemma {:induction false} IndexedKeysBelow(name: string, n: nat, j: nat)
    requires n <= j
    ensures IndexedKey(name, j) !in IndexedKeys(name, n)
    decreases n
  {
    if n > 0 {
      IndexedKeysBelow(name, n - 1, j);
      if IndexedKey(name, n - 1) == IndexedKey(name, j) {
        IndexedKeyInjective(name, n - 1, j);
      }
    }
  }

  lemma {:induction false} IndexedKeysMember(name: string, n: nat, j: nat)
    requires j < n
    ensures IndexedKey(name, j) in IndexedKeys(name, n)
    decreases n
  {
    if j < n - 1 {
      IndexedKeysMember(name, n - 1, j);
    }
  }

  /**
   * The entries contributed by a slice field, as the inner loop writes them:
   * element `j` goes under `name[j]` when it has a text, and is dropped
   * otherwise.
   */
  function SliceForm(name: string, items: seq<Value>): Form
    decreases |items|
  {
    if |items| == 0 then map[]
    else
      var n := |items| - 1;
      var prev := SliceForm(name, items[..n]);
      match Render(items[n])
      case None => prev
      case Some(t) => prev[IndexedKey(name, n) := t]
  }

  /**
   * A slice field of `n` elements yields keys among `name[0]` ... `name[n-1]`
   * only; `name[j]` is present exactly when element `j` has a text (an empty
   * string included) and then holds that text, so elements without a text
   * leave a gap in the numbering rather than shifting later elements down.
   */
  lemma {:induction false} SliceFormEntries(name: string, items: seq<Value>)
    ensures SliceForm(name, items).Keys <= IndexedKeys(name, |items|)
    ensures forall j :: 0 <= j < |items| ==>
              (IndexedKey(name, j) in SliceForm(name, items) <==> Render(items[j]).Some?)
    ensures forall j :: 0 <= j < |items| && Render(items[j]).Some? ==>
              SliceForm(name, items)[IndexedKey(name, j)] == Render(items[j]).value
    ensures |SliceForm(name, items)| == CountRendered(items)
  {
    SliceFormKeys(name, items);
    forall j | 0 <= j < |items|
      ensures IndexedKey(name, j) in SliceForm(name, items) <==> Render(items[j]).Some?
      ensures Render(items[j]).Some? ==> SliceForm(name, items)[IndexedKey(name, j)] == Render(items[j]).value
    {
      SliceFormAt(name, items, j);
    }
  }

  /** The keys of a slice field are numbered below its length, one per element with a text. */
  lemma {:induction false} SliceFormKeys(name: string, items: seq<Value>)
    ensures SliceForm(name, items).Keys <= IndexedKeys(name, |items|)
    ensures |SliceForm(name, items)| == CountRendered(items)
    decreases |items|
  {
    if |items| > 0 {
      var n := |items| - 1;
      SliceFormKeys(name, items[..n]);
      IndexedKeysBelow(name, n, n);
    }
  }

  /** Element `j` of a slice field is sent under `name[j]` exactly when it has a text. */
  lemma {:induction false} SliceFormAt(name: string, items: seq<Value>, j: nat)
    requires j < |items|
    ensures IndexedKey(name, j) in SliceForm(name, items) <==> Render(items[j]).Some?
    ensures Render(items[j]).Some? ==> SliceForm(name, items)[IndexedKey(name, j)] == Render(items[j]).value
    decreases |items|
  {
    var n := |items| - 1;
    if j < n {
      SliceFormAt(name, items[..n], j);
      assert items[..n][j] == items[j];
      if IndexedKey(name, j) == IndexedKey(name, n) {
        IndexedKeyInjective(name, j, n);
      }
    } else {
      SliceFormKeys(name, items[..n]);
      IndexedKeysBelow(name, n, n);
    }
  }

  /** Every key of the form `name[i]` starts with `name`. */
  lemma {:induction false} IndexedKeysPrefix(name: string, n: nat, k: string)
    requires k in IndexedKeys(name, n)
    ensures name <= k
    decreases n
  {
    if k != IndexedKey(name, n - 1) {
      IndexedKeysPrefix(name, n - 1, k);
    }
  }

  /** A slice of strings, element by element. */
  function AsValues(items: seq<string>): (r: seq<Value>)
    ensures |r| == |items|
    ensures forall i :: 0 <= i < |items| ==> r[i] == Str(items[i])
  {
    seq(|items|, i requires 0 <= i < |items| => Str(items[i]))
  }

  /** Every element of a slice of strings has a text, empty strings included. */
  lemma {:induction false} StringsAllRendered(items: seq<string>)
    ensures CountRendered(AsValues(items)) == |items|
    decreases |items|
  {
    if |items| > 0 {
      var n := |items| - 1;
      assert AsValues(items)[..n] == AsValues(items[..n]);
      StringsAllRendered(items[..n]);
    }
  }

  /** The entries one field contributes to the form. */
  function FieldForm(f: Field): (r: Form)
    ensures !Emitted(f) ==> r == map[]
    ensures f.value == Str("") || f.value.Composite? ==> r == map[]
    ensures Emitted(f) && f.value.Slice? ==> r == SliceForm(WireName(f), f.value.items)
    ensures Emitted(f) && Render(f.value).Some? && f.value != Str("") ==>
              r.Keys == {WireName(f)} && Decode(r[WireName(f)], f.value) == Some(f.value)
  {
    if !Emitted(f) then map[]
    else
      match f.value
      case Str(s) => if s == "" then map[] else map[WireName(f) := s]
      case Slice(items) => SliceForm(WireName(f), items)
      case Composite => map[]
      case _ => map[WireName(f) := Render(f.value).value]
  }

  /**
   * The form of a struct: the fields are visited in declaration order and
   * each one's entries are written into the same map, so a later field
   * overwrites an earlier one that produced the same key.
   */
  function EncodeFields(fs: seq<Field>): Form
    decreases |fs|
  {
    if |fs| == 0 then map[]
    else EncodeFields(fs[..|fs| - 1]) + FieldForm(fs[|fs| - 1])
  }

  /** No field after index `i` writes key `k`. */
  ghost predicate LastWriter(fs: seq<Field>, i: int, k: string) {
    forall j :: 0 <= j < |fs| && i < j ==> k !in FieldForm(fs[j])
  }

  /** A key is in the form exactly when some field contributes it. */
  lemma {:induction false} EncodedKeys(fs: seq<Field>, k: string)
    ensures k in EncodeFields(fs) <==> exists i :: 0 <= i < |fs| && k in FieldForm(fs[i])
    decreases |fs|
  {
    if |fs| > 0 {
      var n := |fs| - 1;
      var prev := fs[..n];
      EncodedKeys(prev, k);
      assert EncodeFields(fs) == EncodeFields(prev) + FieldForm(fs[n]);
      if k in EncodeFields(fs) {
        if k !in FieldForm(fs[n]) {
          var i :| 0 <= i < n && k in FieldForm(prev[i]);
          assert prev[i] == fs[i];
        }
      } else {
        forall i | 0 <= i < |fs|
          ensures k !in FieldForm(fs[i])
        {
          if i < n {
            assert prev[i] == fs[i];
          }
        }
      }
    }
  }


  /** The value under a key is the one written by the last field that writes the key. */
  lemma {:induction false} LastWriterWins(fs: seq<Field>, i: nat, k: string)
    requires i < |fs| && k in FieldForm(fs[i])
    requires LastWriter(fs, i, k)
    ensures k in EncodeFields(fs) && EncodeFields(fs)[k] == FieldForm(fs[i])[k]
    decreases |fs|
  {
    var n := |fs| - 1;
    if i < n {
      assert k !in FieldForm(fs[n]);
      assert fs[..n][i] == fs[i];
      assert LastWriter(fs[..n], i, k) by {
        forall j | 0 <= j < n && i < j
          ensures k !in FieldForm(fs[..n][j])
        {
          assert fs[..n][j] == fs[j];
        }
      }
      LastWriterWins(fs[..n], i, k);
    }
  }

  /**
   * Encoding of the request body: a `map[string]string` is passed through
   * untouched; a struct or a pointer to a struct is walked field by field;
   * anything else, a pointer to a map or a pointer to a pointer included, is
   * rejected before any request is made.
   */
  function Encode(body: Body): (r: Result<Form, EncodeError>)
    ensures body.FormMap? ==> r == Success(body.form)
    ensures r.Success? <==> body.FormMap? || body.Record? || (body.Pointer? && body.target.Record?)
    ensures r.Failure? ==> r.error == InvalidBodyKind
    ensures body.Record? ==> r == Success(EncodeFields(body.fields))
    ensures body.Pointer? && body.target.Record? ==> r == Success(EncodeFields(body.target.fields))
  {
    match body
    case FormMap(m) => Success(m)
    case Record(fs) => Success(EncodeFields(fs))
    case Pointer(Record(fs)) => Success(EncodeFields(fs))
    case _ => Failure(InvalidBodyKind)
  }

  // ---------------------------------------------------------------------
  // Properties of the encoding
  // ---------------------------------------------------------------------

  lemma UnionAssoc(a: Form, b: Form, c: Form)
    ensures a + (b + c) == (a + b) + c
  {
  }

  /** Encoding distributes over concatenation of field lists (later entries win). */
  lemma {:induction false} EncodeConcat(a: seq<Field>, b: seq<Field>)
    ensures EncodeFields(a + b) == EncodeFields(a) + EncodeFields(b)
    decreases |b|
  {
    if |b| == 0 {
      assert a + b == a;
    } else {
      var n := |b| - 1;
      var ab := a + b;
      assert ab[..|ab| - 1] == a + b[..n];
      assert ab[|ab| - 1] == b[n];
      EncodeFieldsLast(ab);
      EncodeFieldsLast(b);
      EncodeConcat(a, b[..n]);
      UnionAssoc(EncodeFields(a), EncodeFields(b[..n]), FieldForm(b[n]));
    }
  }

  /** The last field's entries go in last. */
  lemma EncodeFieldsLast(fs: seq<Field>)
    requires |fs| > 0
    ensures EncodeFields(fs) == EncodeFields(fs[..|fs| - 1]) + FieldForm(fs[|fs| - 1])
  {
  }

  /** A struct none of whose fields contributes anything encodes to the empty form. */
  lemma {:induction false} AllSilent(fs: seq<Field>)
    requires forall i :: 0 <= i < |fs| ==> FieldForm(fs[i]) == map[]
    ensures EncodeFields(fs) == map[]
    decreases |fs|
  {
    if |fs| > 0 {
      var n := |fs| - 1;
      assert forall i :: 0 <= i < n ==> fs[..n][i] == fs[i];
      AllSilent(fs[..n]);
    }
  }

  /** Prepending a field: its entries go in first, so any later field overwrites them. */
  lemma EncodeFieldsCons(f: Field, fs: seq<Field>)
    ensures EncodeFields([f] + fs) == FieldForm(f) + EncodeFields(fs)
  {
    var single: seq<Field> := [f];
    assert single[..0] == [];
    EncodeConcat(single, fs);
  }

  /** A two-field struct, written out: the second field's entries win. */
  lemma EncodeTwo(f0: Field, f1: Field)
    ensures EncodeFields([f0, f1]) == FieldForm(f0) + FieldForm(f1)
  {
    assert [f0, f1][..1] == [f0];
    assert [f0][..0] == [];
    assert EncodeFields([f0]) == FieldForm(f0);
  }

  /** Appending a field: its entries go in last and overwrite any earlier ones. */
  lemma EncodeFieldsSnoc(fs: seq<Field>, f: Field)
    ensures EncodeFields(fs + [f]) == EncodeFields(fs) + FieldForm(f)
  {
    assert (fs + [f])[..|fs|] == fs;
  }

  /** Appending a field that contributes nothing leaves the form as it was. */
  lemma SilentLast(fs: seq<Field>, f: Field)
    requires FieldForm(f) == map[]
    ensures EncodeFields(fs + [f]) == EncodeFields(fs)
  {
    EncodeFieldsSnoc(fs, f);
    var m := EncodeFields(fs);
    assert m + map[] == m;
  }

  /** A four-field struct, written out: the union of the fields' entries in order. */
  lemma EncodeFour(f0: Field, f1: Field, f2: Field, f3: Field)
    ensures EncodeFields([f0, f1, f2, f3]) == FieldForm(f0) + FieldForm(f1) + FieldForm(f2) + FieldForm(f3)
  {
    assert [f0, f1, f2, f3][..3] == [f0, f1, f2];
    assert [f0, f1, f2][..2] == [f0, f1];
    assert [f0, f1][..1] == [f0];
    assert [f0][..0] == [];
    assert EncodeFields([f0]) == FieldForm(f0);
    assert EncodeFields([f0, f1]) == FieldForm(f0) + FieldForm(f1);
    assert EncodeFields([f0, f1, f2]) == FieldForm(f0) + FieldForm(f1) + FieldForm(f2);
  }

  /** A four-field struct whose fields' entries are known. */
  lemma EncodeFourAs(f0: Field, f1: Field, f2: Field, f3: Field, e0: Form, e1: Form, e2: Form, e3: Form)
    requires FieldForm(f0) == e0 && FieldForm(f1) == e1 && FieldForm(f2) == e2 && FieldForm(f3) == e3
    ensures EncodeFields([f0, f1, f2, f3]) == e0 + e1 + e2 + e3
  {
    EncodeFour(f0, f1, f2, f3);
  }

  // ---------------------------------------------------------------------
  // Fields as the request models declare them: exported, json-tagged
  // ---------------------------------------------------------------------

  /** A json tag that names a key: present, without options, not the skip sentinel. */
  predicate PlainTag(tag: string) {
    tag != "" && ',' !in tag && tag != "-"
  }

  /** The entry of a string under `key`: none for the empty string. */
  function StrEntry(key: string, s: string): (r: Form)
    ensures key in r <==> s != ""
    ensures r.Keys <= {key}
    ensures key in r ==> r[key] == s
  {
    if s == "" then map[] else map[key := s]
  }

  /** An exported string field with a plain json tag is sent under its tag when non-empty. */
  lemma TaggedStr(name: string, tag: string, s: string)
    requires PlainTag(tag)
    ensures FieldForm(Field(name, true, "", tag, Str(s))) == StrEntry(tag, s)
  {
    assert WireName(Field(name, true, "", tag, Str(s))) == tag;
  }

  /** A field tagged `json:"-"` and without a form tag contributes nothing, whatever its value. */
  lemma DashTagged(f: Field)
    requires f.formTag == "" && f.jsonTag == "-"
    ensures FieldForm(f) == map[]
  {
    assert WireName(f) == "-";
  }

  /** An exported integer field with a plain json tag is always sent, in decimal. */
  lemma TaggedInt(name: string, tag: string, i: int)
    requires PlainTag(tag)
    ensures FieldForm(Field(name, true, "", tag, Int(i))) == map[tag := FormatInt(i)]
  {
    assert WireName(Field(name, true, "", tag, Int(i))) == tag;
  }

  lemma {:induction false} NoneRendered(items: seq<Value>)
    requires forall j :: 0 <= j < |items| ==> items[j].Composite?
    ensures CountRendered(items) == 0
    decreases |items|
  {
    if |items| > 0 {
      var n := |items| - 1;
      assert forall j :: 0 <= j < n ==> items[..n][j] == items[j];
      NoneRendered(items[..n]);
    }
  }

  /** A slice of structs contributes nothing: none of its elements has a text. */
  lemma StructSliceSilent(f: Field)
    requires f.value.Slice?
    requires forall j :: 0 <= j < |f.value.items| ==> f.value.items[j].Composite?
    ensures FieldForm(f) == map[]
  {
    if Emitted(f) {
      SliceFormEntries(WireName(f), f.value.items);
      NoneRendered(f.value.items);
    }
  }

  lemma {:induction false} SilentFieldDropped(pre: seq<Field>, f: Field, post: seq<Field>)
    requires FieldForm(f) == map[]
    ensures EncodeFields(pre + [f] + post) == EncodeFields(pre + post)
  {
    var single: seq<Field> := [f];
    assert single[..0] == [];
    assert EncodeFields(single) == map[];
    EncodeConcat(pre, single);
    assert EncodeFields(pre + single) == EncodeFields(pre);
    EncodeConcat(pre + single, post);
    EncodeConcat(pre, post);
  }

  /**
   * A skipped field (unexported, or with wire name "-") has no influence on
   * the form, whatever value it holds: the form equals that of the struct
   * without the field.
   */
  lemma {:induction false} SkippedFieldIrrelevant(fs: seq<Field>, i: nat)
    requires i < |fs|
    requires !Emitted(fs[i])
    ensures EncodeFields(fs) == EncodeFields(fs[..i] + fs[i + 1..])
  {
    assert fs == fs[..i] + [fs[i]] + fs[i + 1..];
    SilentFieldDropped(fs[..i], fs[i], fs[i + 1..]);
  }

  lemma {:induction false} DashNotIndexed(name: string, n: nat)
    ensures "-" !in IndexedKeys(name, n)
    decreases n
  {
    if n > 0 {
      DashNotIndexed(name, n - 1);
      IndexedKeyShape(name, n - 1);
    }
  }

  /** The sentinel "-" is never a key of an encoded struct. */
  lemma DashNeverSent(fs: seq<Field>)
    ensures "-" !in EncodeFields(fs)
  {
    forall i | 0 <= i < |fs|
      ensures "-" !in FieldForm(fs[i])
    {
      var f := fs[i];
      if Emitted(f) && f.value.Slice? {
        SliceFormEntries(WireName(f), f.value.items);
        DashNotIndexed(WireName(f), |f.value.items|);
      }
    }
    EncodedKeys(fs, "-");
  }

  /** Rendering a scalar and decoding the text gives the scalar back. */
  lemma RenderRoundTrip(v: Value)
    requires !v.Slice? && !v.Composite?
    ensures Render(v).Some? && Decode(Render(v).value, v) == Some(v)
  {
  }

  // ---------------------------------------------------------------------
  // The field walk as the client performs it: one map, written in place
  // ---------------------------------------------------------------------

  /** One more element: its entry, if it has a text, goes on top of the earlier ones. */
  lemma SliceFormStep(form: Form, name: string, items: seq<Value>, j: nat)
    requires j < |items|
    ensures form + SliceForm(name, items[..j + 1]) ==
              if Render(items[j]).Some? then (form + SliceForm(name, items[..j]))[IndexedKey(name, j) := Render(items[j]).value]
              else form + SliceForm(name, items[..j])
  {
    assert items[..j + 1][..j] == items[..j];
  }

  /** The inner loop over a slice field: writes `name[j]` for every element with a text. */
  method PutItems(form: Form, name: string, items: seq<Value>) returns (out: Form)
    ensures out == form + SliceForm(name, items)
  {
    out := form;
    var j := 0;
    while j < |items|
      invariant 0 <= j <= |items|
      invariant out == form + SliceForm(name, items[..j])
    {
      SliceFormStep(form, name, items, j);
      match items[j] {
        case Str(s) => out := out[IndexedKey(name, j) := s];
        case Int(n) => out := out[IndexedKey(name, j) := FormatInt(n)];
        case Uint(n) => out := out[IndexedKey(name, j) := FormatNat(n)];
        case Bool(b) => out := out[IndexedKey(name, j) := BoolText(b)];
        case _ =>
      }
      j := j + 1;
    }
    assert items[..|items|] == items;
  }

  /** The body of the outer loop: the switch on one field's kind, writing into the shared map. */
  method PutField(form: Form, f: Field) returns (out: Form)
    ensures out == form + FieldForm(f)
  {
    out := form;
    if f.exported {
      var name := WireName(f);
      if name != "-" {
        match f.value {
          case Str(s) => if s != "" { out := out[name := s]; }
          case Int(n) => out := out[name := FormatInt(n)];
          case Uint(n) => out := out[name := FormatNat(n)];
          case Bool(b) => out := out[name := BoolText(b)];
          case Slice(items) => out := PutItems(out, name, items);
          case Composite =>
        }
      }
    }
  }

  /** The outer loop over the fields of a struct. */
  method EncodeRecord(fs: seq<Field>) returns (form: Form)
    ensures form == EncodeFields(fs)
  {
    form := map[];
    var i := 0;
    while i < |fs|
      invariant 0 <= i <= |fs|
      invariant form == EncodeFields(fs[..i])
    {
      assert fs[..i + 1][..i] == fs[..i];
      form := PutField(form, fs[i]);
      i := i + 1;
    }
    assert fs[..|fs|] == fs;
  }
}
