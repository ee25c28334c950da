/**
 * The recursive pretty-printer of Util (dump and indent) over an explicit
 * value type. The property values of an entity are taken as already read
 * through its getters; numbers carry their own text.
 */
module DumpUtil {

  /** The objects the printer distinguishes. Sets and maps are listed in their iteration order. */
  datatype Value =
    | Null
    | Str(text: string)
    | Num(digits: string)             // the text of Number.toString()
    | List(items: seq<Value>)
    | Set(members: seq<Value>)
    | Map(entries: seq<Entry>)
    | Entity(properties: seq<Property>)

  datatype Entry = Entry(key: Value, value: Value)

  /** A readable bean property of an entity and the value its getter returned. */
  datatype Property = Property(name: string, value: Value)

  /** Four spaces per nesting level. */
  function Blank(level: nat): string {
    seq(4 * level, _ => ' ')
  }

  /** The separator after the element at index i of a collection of the given size. */
  function Comma(i: nat, size: nat): string {
    if i + 1 < size then "," else ""
  }

  /** The property map an entity is rendered as: each property name, as a string key, to its value. */
  function PropertyEntries(ps: seq<Property>): (es: seq<Entry>)
    ensures |es| == |ps|
    ensures forall i | 0 <= i < |ps| :: es[i] == Entry(Str(ps[i].name), ps[i].value)
  {
    seq(|ps|, i requires 0 <= i < |ps| => Entry(Str(ps[i].name), ps[i].value))
  }

  // A measure under which an entity is larger than its property map; it
  // drives the termination of Render and Dump.

  function Size(v: Value): (n: nat)
    ensures n >= 1
    decreases v, 1
  {
    match v
    case Null => 1
    case Str(_) => 1
    case Num(_) => 1
    case List(xs) => 1 + ItemsSize(xs, |xs|)
    case Set(xs) => 1 + ItemsSize(xs, |xs|)
    case Map(es) => 1 + EntriesSize(es, |es|)
    case Entity(ps) => 2 + PropertiesSize(ps, |ps|)
  }

  function ItemsSize(xs: seq<Value>, n: nat): nat
    requires n <= |xs|
    decreases xs, n
  {
    if n == 0 then 0 else ItemsSize(xs, n - 1) + Size(xs[n - 1])
  }

  function EntriesSize(es: seq<Entry>, n: nat): nat
    requires n <= |es|
    decreases es, n
  {
    if n == 0 then 0
    else
      var e := es[n - 1];
      assert es decreases to e;
      assert e decreases to e.key;
      assert e decreases to e.value;
      EntriesSize(es, n - 1) + Size(e.key) + Size(e.value)
  }

  function PropertiesSize(ps: seq<Property>, n: nat): nat
    requires n <= |ps|
    decreases ps, n
  {
    if n == 0 then 0 else PropertiesSize(ps, n - 1) + 1 + Size(ps[n - 1].value)
  }

  lemma {:induction false} PropertyMapSize(ps: seq<Property>, n: nat)
    requires n <= |ps|
    ensures EntriesSize(PropertyEntries(ps), n) == PropertiesSize(ps, n)
  {
    if n > 0 {
      PropertyMapSize(ps, n - 1);
    }
  }

  lemma {:induction false} ItemWithinSize(xs: seq<Value>, n: nat, i: nat)
    requires i < n <= |xs|
    ensures Size(xs[i]) <= ItemsSize(xs, n)
  {
    if i < n - 1 {
      ItemWithinSize(xs, n - 1, i);
    }
  }

  lemma {:induction false} EntryWithinSize(es: seq<Entry>, n: nat, i: nat)
    requires i < n <= |es|
    ensures Size(es[i].key) + Size(es[i].value) <= EntriesSize(es, n)
  {
    if i < n - 1 {
      EntryWithinSize(es, n - 1, i);
    }
  }

  /**
   * The text dump produces for v at the given nesting level. A non-empty
   * collection puts one element per line, each indented one level deeper and
   * followed by a comma except the last; the closing '>' and '}' are indented
   * to the collection's own level, the closing ']' is not indented at all.
   */
  function Render(v: Value, level: nat): string
    decreases Size(v), 1
  {
    match v
    case Null => "null"
    case Str(text) => "\"" + text + "\""
    case Num(digits) => digits
    case List(xs) =>
      if xs == [] then "[]" else "[\n" + ItemLines(xs, level + 1, |xs|) + "]"
    case Set(xs) =>
      if xs == [] then "<>" else "<\n" + ItemLines(xs, level + 1, |xs|) + Blank(level) + ">"
    case Map(es) =>
      if es == [] then "{}" else "{\n" + EntryLines(es, level + 1, |es|) + Blank(level) + "}"
    case Entity(ps) =>
      PropertyMapSize(ps, |ps|);
      Render(Map(PropertyEntries(ps)), level)
  }

  /** The lines of the first n elements of a list or set. */
  function ItemLines(xs: seq<Value>, level: nat, n: nat): string
    requires n <= |xs|
    decreases ItemsSize(xs, n), 2
  {
    if n == 0 then ""
    else ItemLines(xs, level, n - 1) + Blank(level) + Render(xs[n - 1], level) + Comma(n - 1, |xs|) + "\n"
  }

  /** The lines of the first n entries of a map. */
  function EntryLines(es: seq<Entry>, level: nat, n: nat): string
    requires n <= |es|
    decreases EntriesSize(es, n), 2
  {
    if n == 0 then ""
    else
      EntryLines(es, level, n - 1) + Blank(level) + Render(es[n - 1].key, level) + ": "
      + Render(es[n - 1].value, level) + Comma(n - 1, |es|) + "\n"
  }

  /** Util.indent: a StringBuilder filled with four spaces per level; nothing for a level below one. */
  method Indent(level: int) returns (s: string)
    ensures |s| == if level > 0 then 4 * level else 0
    ensures forall i | 0 <= i < |s| :: s[i] == ' '
  {
    s := "";
    var i := 0;
    while i < level
      invariant 0 <= i <= if level > 0 then level else 0
      invariant |s| == 4 * i
      invariant forall k | 0 <= k < |s| :: s[k] == ' '
    {
      s := s + "    ";
      i := i + 1;
    }
  }

  /**
   * Util.dump(object, visited, indent): scalars directly, collections through
   * the element loops below, an entity through its property map at the same level.
   */
  method DumpAt(v: Value, level: nat) returns (s: string)
    ensures s == Render(v, level)
    decreases Size(v), 1
  {
    match v
    case Null =>
      s := "null";
    case Str(text) =>
      s := "\"" + text + "\"";
    case Num(digits) =>
      s := digits;
    case List(xs) =>
      if |xs| == 0 {
        return "[]";
      }
      var lines := WriteItems(xs, level + 1);
      s := "[\n" + lines + "]";
    case Set(xs) =>
      if |xs| == 0 {
        return "<>";
      }
      var lines := WriteItems(xs, level + 1);
      var closing := Indent(level);
      assert closing == Blank(level);
      s := "<\n" + lines + closing + ">";
    case Map(es) =>
      if |es| == 0 {
        return "{}";
      }
      var lines := WriteEntries(es, level + 1);
      var closing := Indent(level);
      assert closing == Blank(level);
      s := "{\n" + lines + closing + "}";
    case Entity(ps) =>
      var properties := PropertyEntries(ps);
      PropertyMapSize(ps, |ps|);
      s := DumpAt(Map(properties), level);
  }

  /**
   * The loop of dump over a list or a set: each element on its own line at the
   * given level, a comma while the running count is below the size.
   */
  method WriteItems(xs: seq<Value>, level: nat) returns (s: string)
    ensures s == ItemLines(xs, level, |xs|)
    decreases ItemsSize(xs, |xs|), 2
  {
    var size := |xs|;
    s := "";
    var count := 0;
    while count < size
      invariant 0 <= count <= size
      invariant s == ItemLines(xs, level, count)
    {
      var o := xs[count];
      ItemWithinSize(xs, size, count);
      count := count + 1;
      var pad := Indent(level);
      assert pad == Blank(level);
      var text := DumpAt(o, level);
      s := s + pad + text;
      if count < size {
        s := s + ",";
      }
      s := s + "\n";
    }
  }

  /** The loop of dump over a map's entries: "key: value" per line. */
  method WriteEntries(es: seq<Entry>, level: nat) returns (s: string)
    ensures s == EntryLines(es, level, |es|)
    decreases EntriesSize(es, |es|), 2
  {
    var size := |es|;
    s := "";
    var count := 0;
    while count < size
      invariant 0 <= count <= size
      invariant s == EntryLines(es, level, count)
    {
      var entry := es[count];
      EntryWithinSize(es, size, count);
      count := count + 1;
      var pad := Indent(level);
      assert pad == Blank(level);
      var key := DumpAt(entry.key, level);
      var value := DumpAt(entry.value, level);
      s := s + pad + key + ": " + value;
      if count < size {
        s := s + ",";
      }
      s := s + "\n";
    }
  }

  /** Util.dump(object): the dump of the object at nesting level zero. */
  method Dump(v: Value) returns (s: string)
    ensures s == Render(v, 0)
  {
    s := DumpAt(v, 0);
  }

  /** Scalars and empty collections are rendered on one line. */
  lemma DumpAtoms(level: nat, text: string, digits: string)
    ensures Render(Null, level) == "null"
    ensures Render(Str(text), level) == "\"" + text + "\""
    ensures Render(Num(digits), level) == digits
    ensures Render(List([]), level) == "[]"
    ensures Render(Set([]), level) == "<>"
    ensures Render(Map([]), level) == "{}"
    ensures Render(Entity([]), level) == "{}"
  {
  }

  /**
   * The lines of the first n properties of an entity, one per property: its
   * name in double quotes, ": ", then its value one level deeper.
   */
  function PropertyLines(ps: seq<Property>, level: nat, n: nat): string
    requires n <= |ps|
  {
    if n == 0 then ""
    else
      PropertyLines(ps, level, n - 1) + Blank(level) + "\"" + ps[n - 1].name + "\": "
      + Render(ps[n - 1].value, level) + Comma(n - 1, |ps|) + "\n"
  }

  lemma {:induction false} PropertyMapLines(ps: seq<Property>, level: nat, n: nat)
    requires n <= |ps|
    ensures EntryLines(PropertyEntries(ps), level, n) == PropertyLines(ps, level, n)
  {
    if n > 0 {
      PropertyMapLines(ps, level, n - 1);
      assert Render(PropertyEntries(ps)[n - 1].key, level) == "\"" + ps[n - 1].name + "\"";
    }
  }

  /**
   * An entity is rendered as a map of its properties: "{}" when it has none,
   * otherwise one "\"name\": value" line per property between '{' and a '}'
   * at the entity's own indentation.
   */
  lemma EntityRendering(ps: seq<Property>, level: nat)
    ensures ps == [] ==> Render(Entity(ps), level) == "{}"
    ensures ps != [] ==> Render(Entity(ps), level) == "{\n" + PropertyLines(ps, level + 1, |ps|) + Blank(level) + "}"
  {
    PropertyMapLines(ps, level + 1, |ps|);
  }

  /** The lines of n > 0 elements end in a newline, the last without a comma. */
  lemma {:induction false} LastItemLine(xs: seq<Value>, level: nat)
    requires |xs| > 0
    ensures ItemLines(xs, level, |xs|)
         == ItemLines(xs, level, |xs| - 1) + Blank(level) + Render(xs[|xs| - 1], level) + "\n"
  {
  }

  /** Every line before the last carries a comma after its element. */
  lemma {:induction false} InnerItemLine(xs: seq<Value>, level: nat, i: nat)
    requires i + 1 < |xs|
    ensures ItemLines(xs, level, i + 1)
         == ItemLines(xs, level, i) + Blank(level) + Render(xs[i], level) + ",\n"
  {
  }

  /**
   * The closing bracket of a non-empty list starts its line, while the closing
   * '>' of a set and '}' of a map or entity stand at the collection's indentation.
   */
  lemma ClosingDelimiters(v: Value, level: nat)
    requires v.List? || v.Set? || v.Map? || v.Entity?
    requires v.List? ==> v.items != []
    requires v.Set? ==> v.members != []
    requires v.Map? ==> v.entries != []
    requires v.Entity? ==> v.properties != []
    ensures v.List? ==> EndsWith(Render(v, level), "\n]")
    ensures v.Set? ==> EndsWith(Render(v, level), "\n" + Blank(level) + ">")
    ensures v.Map? || v.Entity? ==> EndsWith(Render(v, level), "\n" + Blank(level) + "}")
  {
    match v
    case List(xs) =>
      ListClosing(xs, level);
    case Set(xs) =>
      SetClosing(xs, level);
    case Map(es) =>
      MapClosing(es, level);
    case Entity(ps) =>
      MapClosing(PropertyEntries(ps), level);
  }

  lemma ListClosing(xs: seq<Value>, level: nat)
    requires xs != []
    ensures EndsWith(Render(List(xs), level), "\n]")
  {
    LinesEndInNewline(xs, level + 1);
    EndsAfterNewline("[\n", ItemLines(xs, level + 1, |xs|), "]");
  }

  lemma SetClosing(xs: seq<Value>, level: nat)
    requires xs != []
    ensures EndsWith(Render(Set(xs), level), "\n" + Blank(level) + ">")
  {
    var lines := ItemLines(xs, level + 1, |xs|);
    LinesEndInNewline(xs, level + 1);
    EndsAfterNewline("<\n", lines, Blank(level) + ">");
    assert "<\n" + lines + Blank(level) + ">" == "<\n" + lines + (Blank(level) + ">");
  }

  lemma MapClosing(es: seq<Entry>, level: nat)
    requires es != []
    ensures EndsWith(Render(Map(es), level), "\n" + Blank(level) + "}")
  {
    var lines := EntryLines(es, level + 1, |es|);
    assert lines[|lines| - 1] == '\n';
    EndsAfterNewline("{\n", lines, Blank(level) + "}");
  }

  /** Text that ends in a newline, followed by a tail, ends in the newline and the tail. */
  lemma EndsAfterNewline(head: string, lines: string, tail: string)
    requires |lines| > 0 && lines[|lines| - 1] == '\n'
    ensures EndsWith(head + lines + tail, "\n" + tail)
  {
    var s := head + lines + tail;
    assert s[|s| - |tail| - 1] == '\n';
    assert s[|s| - |tail|..] == tail;
  }

  lemma LinesEndInNewline(xs: seq<Value>, level: nat)
    requires |xs| > 0
    ensures |ItemLines(xs, level, |xs|)| > 0
    ensures ItemLines(xs, level, |xs|)[|ItemLines(xs, level, |xs|)| - 1] == '\n'
  {
  }

  predicate EndsWith(s: string, suffix: string) {
    |suffix| <= |s| && s[|s| - |suffix|..] == suffix
  }
}
