/** The class table: how it is read from `classes.txt`, the height of the
    panel that lists it, and how a box's class id is turned into a name and a
    colour. */
module ClassTable {
  import opened Optional
  import opened Numeric
  import opened LabelText

  const ClassesFile: string := "classes.txt"

  /** The table used when there is no classes file. */
  const DefaultClasses: seq<string> := ["person", "car", "bike", "dog", "cat"]

  /** The outline colours, picked by class id modulo their number. */
  const Colours: seq<string> := ["red", "blue", "green", "yellow", "purple", "orange"]

  /** A name as it stands in the table: not blank, no surrounding whitespace. */
  predicate IsClassName(n: string)
  {
    n != "" && !IsSpace(n[0]) && !IsSpace(n[|n| - 1])
  }

  /** `[line.strip() for line in lines if line.strip()]`. */
  function ClassNames(lines: seq<string>): (names: seq<string>)
    ensures |names| <= |lines|
    ensures forall i :: 0 <= i < |names| ==> IsClassName(names[i])
    decreases |lines|
  {
    if lines == [] then []
    else
      var n := Strip(lines[0]);
      var rest := ClassNames(lines[1..]);
      if n != "" then
        assert IsClassName(n);
        [n] + rest
      else rest
  }

  /** Reading a file that holds a table, one name per line, gives that table
      back: saving the classes and loading them again changes nothing. */
  lemma {:induction false} ClassNamesOfTable(names: seq<string>)
    requires forall i :: 0 <= i < |names| ==> IsClassName(names[i])
    ensures ClassNames(names) == names
    decreases |names|
  {
    if names != [] {
      StripUnpadded(names[0]);
      assert ClassNames(names) == [names[0]] + ClassNames(names[1..]);
      ClassNamesOfTable(names[1..]);
      assert [names[0]] + names[1..] == names;
    }
  }

  /** Reading a file twice over is reading it once. */
  lemma ClassNamesIdempotent(lines: seq<string>)
    ensures ClassNames(ClassNames(lines)) == ClassNames(lines)
  {
    ClassNamesOfTable(ClassNames(lines));
  }

  /** A single line gives its strip when that is not blank, and nothing
      otherwise. */
  lemma ClassNamesOfLine(line: string)
    ensures ClassNames([line]) == if Strip(line) != "" then [Strip(line)] else []
  {
    assert [line][1..] == [];
  }

  /** The names of two runs of lines are those of the first run followed by
      those of the second: with ClassNamesOfLine, every non-blank line
      contributes its strip, in file order. */
  lemma {:induction false} ClassNamesAppend(a: seq<string>, b: seq<string>)
    ensures ClassNames(a + b) == ClassNames(a) + ClassNames(b)
    decreases |a|
  {
    if a == [] {
      assert a + b == b;
    } else {
      assert (a + b)[0] == a[0];
      assert (a + b)[1..] == a[1..] + b;
      ClassNamesAppend(a[1..], b);
    }
  }

  /** The table load_classes installs, given the text files on disk. */
  function LoadedClasses(texts: map<string, seq<string>>): (cs: seq<string>)
    ensures forall i :: 0 <= i < |cs| ==> IsClassName(cs[i])
    ensures ClassesFile !in texts ==> cs == DefaultClasses
  {
    if ClassesFile in texts then ClassNames(texts[ClassesFile])
    else
      DefaultsAreNames();
      DefaultClasses
  }

  lemma DefaultsAreNames()
    ensures forall i :: 0 <= i < |DefaultClasses| ==> IsClassName(DefaultClasses[i])
  {
  }

  /** `max(80, min(300, n * 30 + 20))`: 30 pixels per class and a margin of
      20, but never under 80 or over 300. */
  function FrameHeight(n: nat): (h: int)
    ensures 80 <= h <= 300
    ensures n <= 2 ==> h == 80
    ensures 2 <= n <= 9 ==> h == 30 * n + 20
    ensures n >= 10 ==> h == 300
  {
    Geometry.Max(80, Geometry.Min(300, n * 30 + 20))
  }

  /** More classes never make the panel smaller. */
  lemma FrameHeightMonotone(a: nat, b: nat)
    requires a <= b
    ensures FrameHeight(a) <= FrameHeight(b)
  {
  }

  /** Python's `xs[k]` on a list of length n, negative k counting from the
      end: the position read, or None where Python raises IndexError. */
  function PyIndex(n: nat, k: int): (p: Option<nat>)
    ensures p.Some? <==> -(n as int) <= k < n
    ensures p.Some? ==> p.value < n && (p.value == k || p.value == n + k)
  {
    if 0 <= k < n then Some(k) else if -(n as int) <= k < 0 then Some((n + k) as nat) else None
  }

  /** The name shown in the label list for class id k:
      `classes[k] if k < len(classes) else f"Class{k}"`. None where the
      lookup raises IndexError (k below -len(classes)). */
  function ListName(classes: seq<string>, k: int): (name: Option<string>)
    ensures 0 <= k < |classes| ==> name == Some(classes[k])
    ensures k >= |classes| ==> name == Some("Class" + IntText(k))
    ensures name.None? <==> k < -|classes|
  {
    if k < |classes| then
      match PyIndex(|classes|, k)
      case Some(p) => Some(classes[p])
      case None => None
    else Some("Class" + IntText(k))
  }

  /** The fallback name carries the id: the text after "Class" reads back as k. */
  lemma FallbackNameCarriesId(classes: seq<string>, k: int)
    requires k >= |classes|
    ensures var n := ListName(classes, k).value;
      |n| > 5 && n[..5] == "Class" && ParseNumber(n[5..]) == Some(k as real)
  {
    var n := ListName(classes, k).value;
    assert n[5..] == IntText(k);
    ParseIntText(k);
  }

  /** Index into Colours for class id k: `int(cid) % len(colors)`. */
  function ColourIndex(k: int): (c: nat)
    ensures c < |Colours| && (k - c) % |Colours| == 0
  {
    k % |Colours|
  }
}
