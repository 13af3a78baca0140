/** The character classes of the password generator and the pool that
    `generatePassword` builds from the enabled ones (src/App.jsx). */
module CharacterPool {

  const UppercaseChars: string := "ABCDEFGHIJKLMNOPQRSTUVWXYZ"
  const LowercaseChars: string := "abcdefghijklmnopqrstuvwxyz"
  const NumberChars: string := "0123456789"
  const SymbolChars: string := "!@#$%^&*()_+<>?"

  /** The four classes a user can include, one per checkbox. */
  datatype CharClass = Uppercase | Lowercase | Numbers | Symbols

  /** The fixed candidate string of each class. */
  function ClassChars(k: CharClass): string {
    match k
    case Uppercase => UppercaseChars
    case Lowercase => LowercaseChars
    case Numbers => NumberChars
    case Symbols => SymbolChars
  }

  /** The `name` attribute of the checkbox that toggles each class. */
  function CheckboxName(k: CharClass): string {
    match k
    case Uppercase => "uppercase"
    case Lowercase => "lowercase"
    case Numbers => "numbers"
    case Symbols => "symbols"
  }

  /** The order in which the classes are appended to the pool. */
  const ClassOrder: seq<CharClass> := [Uppercase, Lowercase, Numbers, Symbols]

  /** The four include flags of the component's state. */
  datatype Flags = Flags(uppercase: bool, lowercase: bool, numbers: bool, symbols: bool) {
    predicate Enabled(k: CharClass) {
      match k
      case Uppercase => uppercase
      case Lowercase => lowercase
      case Numbers => numbers
      case Symbols => symbols
    }
  }

  const NoFlags: Flags := Flags(false, false, false, false)

  /** The pool: each enabled class's string appended in turn, as the
      successive `charset +=` steps do. Its size is the sum of the enabled
      classes' sizes, and it is empty exactly when no class is enabled. */
  function Charset(f: Flags): (pool: string)
    ensures |pool| == (if f.uppercase then 26 else 0) + (if f.lowercase then 26 else 0)
                    + (if f.numbers then 10 else 0) + (if f.symbols then 15 else 0)
    ensures pool == [] <==> f == NoFlags
  {
    (if f.uppercase then UppercaseChars else "")
    + (if f.lowercase then LowercaseChars else "")
    + (if f.numbers then NumberChars else "")
    + (if f.symbols then SymbolChars else "")
  }

  /** `[k]` when `f` enables `k`, otherwise nothing. */
  function IfEnabled(f: Flags, k: CharClass): seq<CharClass> {
    if f.Enabled(k) then [k] else []
  }

  /** Reference definition: the classes of `ks` that `f` enables, in order. */
  function EnabledIn(f: Flags, ks: seq<CharClass>): (r: seq<CharClass>)
    ensures forall k :: k in r <==> k in ks && f.Enabled(k)
  {
    if ks == [] then [] else IfEnabled(f, ks[0]) + EnabledIn(f, ks[1..])
  }

  /** Reference definition: the strings of the classes `ks`, concatenated. */
  function Concat(ks: seq<CharClass>): string {
    if ks == [] then "" else ClassChars(ks[0]) + Concat(ks[1..])
  }

  lemma {:induction false} ConcatAppend(a: seq<CharClass>, b: seq<CharClass>)
    ensures Concat(a + b) == Concat(a) + Concat(b)
  {
    if a == [] {
      assert a + b == b;
    } else {
      assert (a + b)[0] == a[0];
      assert (a + b)[1..] == a[1..] + b;
      ConcatAppend(a[1..], b);
      AppendAssociates3(ClassChars(a[0]), Concat(a[1..]), Concat(b));
    }
  }

  lemma AppendAssociates3(x: string, y: string, z: string)
    ensures x + (y + z) == (x + y) + z
  {
  }

  lemma ConcatIfEnabled(f: Flags, k: CharClass)
    ensures Concat(IfEnabled(f, k)) == if f.Enabled(k) then ClassChars(k) else ""
  {
    if f.Enabled(k) { assert [k][1..] == []; }
  }

  lemma EnabledInClassOrder(f: Flags)
    ensures EnabledIn(f, ClassOrder)
         == IfEnabled(f, Uppercase) + (IfEnabled(f, Lowercase) + (IfEnabled(f, Numbers) + IfEnabled(f, Symbols)))
  {
    var e1, e2, e3, e4 := IfEnabled(f, Uppercase), IfEnabled(f, Lowercase), IfEnabled(f, Numbers), IfEnabled(f, Symbols);
    assert [Symbols][1..] == [];
    assert EnabledIn(f, [Symbols]) == e4 by {
      assert EnabledIn(f, [Symbols]) == e4 + EnabledIn(f, []);
      assert e4 + [] == e4;
    }
    assert EnabledIn(f, [Numbers, Symbols]) == e3 + e4 by {
      assert [Numbers, Symbols][1..] == [Symbols];
    }
    assert EnabledIn(f, [Lowercase, Numbers, Symbols]) == e2 + (e3 + e4) by {
      assert [Lowercase, Numbers, Symbols][1..] == [Numbers, Symbols];
    }
    assert ClassOrder[1..] == [Lowercase, Numbers, Symbols];
  }

  /** The pool is the concatenation of exactly the enabled classes' strings,
      in the order uppercase, lowercase, numbers, symbols. */
  lemma {:induction false} CharsetIsEnabledClassesInOrder(f: Flags)
    ensures Charset(f) == Concat(EnabledIn(f, ClassOrder))
  {
    var e1, e2, e3, e4 := IfEnabled(f, Uppercase), IfEnabled(f, Lowercase), IfEnabled(f, Numbers), IfEnabled(f, Symbols);
    EnabledInClassOrder(f);
    ConcatAppend(e1, e2 + (e3 + e4));
    ConcatAppend(e2, e3 + e4);
    ConcatAppend(e3, e4);
    ConcatIfEnabled(f, Uppercase);
    ConcatIfEnabled(f, Lowercase);
    ConcatIfEnabled(f, Numbers);
    ConcatIfEnabled(f, Symbols);
    AppendAssociates3(Concat(e2), Concat(e3), Concat(e4));
    AppendAssociates3(Concat(e1), Concat(e2), Concat(e3) + Concat(e4));
    AppendAssociates3(Concat(e1) + Concat(e2), Concat(e3), Concat(e4));
  }

  /** A character is in the pool exactly when some enabled class contains it. */
  lemma CharsetMembership(f: Flags, c: char)
    ensures c in Charset(f) <==> exists k :: f.Enabled(k) && c in ClassChars(k)
  {
    var p1 := if f.uppercase then UppercaseChars else "";
    var p2 := if f.lowercase then LowercaseChars else "";
    var p3 := if f.numbers then NumberChars else "";
    var p4 := if f.symbols then SymbolChars else "";
    assert Charset(f) == p1 + p2 + p3 + p4;
    if c in Charset(f) {
      if c in p1 { assert f.Enabled(Uppercase) && c in ClassChars(Uppercase); }
      else if c in p2 { assert f.Enabled(Lowercase) && c in ClassChars(Lowercase); }
      else if c in p3 { assert f.Enabled(Numbers) && c in ClassChars(Numbers); }
      else { assert f.Enabled(Symbols) && c in ClassChars(Symbols); }
    }
  }

  /** Enabling more classes never removes a character from the pool. */
  lemma CharsetMonotone(f: Flags, g: Flags)
    requires forall k :: f.Enabled(k) ==> g.Enabled(k)
    ensures forall c :: c in Charset(f) ==> c in Charset(g)
  {
    forall c | c in Charset(f) ensures c in Charset(g) {
      CharsetMembership(f, c);
      CharsetMembership(g, c);
    }
  }

  /** A class's characters are in the pool exactly when that class is
      enabled: turning one checkbox on or off adds or removes its class and
      no other character. */
  lemma ClassInCharsetIffEnabled(f: Flags, k: CharClass, c: char)
    requires c in ClassChars(k)
    ensures c in Charset(f) <==> f.Enabled(k)
  {
    CharsetMembership(f, c);
    if c in Charset(f) {
      var j :| f.Enabled(j) && c in ClassChars(j);
      if j != k { ClassesAreDisjoint(k, j, c); }
    }
  }

  /** No character occurs twice in `s`. */
  predicate NoDuplicates(s: string) {
    forall i, j :: 0 <= i < j < |s| ==> s[i] != s[j]
  }

  /** The letters and digits are consecutive code points. */
  lemma ClassCharsAt()
    ensures forall i :: 0 <= i < |UppercaseChars| ==> UppercaseChars[i] as int == 'A' as int + i
    ensures forall i :: 0 <= i < |LowercaseChars| ==> LowercaseChars[i] as int == 'a' as int + i
    ensures forall i :: 0 <= i < |NumberChars| ==> NumberChars[i] as int == '0' as int + i
  {
  }

  /** No class string repeats a character. */
  lemma ClassCharsHaveNoDuplicates(k: CharClass)
    ensures NoDuplicates(ClassChars(k))
  {
    ClassCharsAt();
  }

  /** Which range each class's characters fall in. */
  lemma ClassRanges(c: char)
    ensures c in UppercaseChars ==> 'A' <= c <= 'Z'
    ensures c in LowercaseChars ==> 'a' <= c <= 'z'
    ensures c in NumberChars ==> '0' <= c <= '9'
    ensures c in SymbolChars ==> c < '0' || ('9' < c < 'A') || ('Z' < c < 'a')
  {
  }

  /** No character belongs to two classes. */
  lemma ClassesAreDisjoint(k1: CharClass, k2: CharClass, c: char)
    requires k1 != k2 && c in ClassChars(k1)
    ensures c !in ClassChars(k2)
  {
    ClassRanges(c);
  }

  lemma NoDuplicatesAppend(a: string, b: string)
    requires NoDuplicates(a) && NoDuplicates(b)
    requires forall c :: c in a ==> c !in b
    ensures NoDuplicates(a + b)
  {
    forall i, j | 0 <= i < j < |a + b| ensures (a + b)[i] != (a + b)[j] {
      if i < |a| && |a| <= j {
        assert (a + b)[i] in a && (a + b)[j] in b;
      }
    }
  }

  /** Every character of the pool occurs once, so a uniform draw over the
      pool's indices picks each enabled character with equal chance. */
  lemma CharsetHasNoDuplicates(f: Flags)
    ensures NoDuplicates(Charset(f))
  {
    var p1 := if f.uppercase then UppercaseChars else "";
    var p2 := if f.lowercase then LowercaseChars else "";
    var p3 := if f.numbers then NumberChars else "";
    var p4 := if f.symbols then SymbolChars else "";
    ClassCharsHaveNoDuplicates(Uppercase);
    ClassCharsHaveNoDuplicates(Lowercase);
    ClassCharsHaveNoDuplicates(Numbers);
    ClassCharsHaveNoDuplicates(Symbols);
    forall c | c in p1 ensures c !in p2 { ClassRanges(c); }
    NoDuplicatesAppend(p1, p2);
    forall c | c in p1 + p2 ensures c !in p3 { ClassRanges(c); }
    NoDuplicatesAppend(p1 + p2, p3);
    forall c | c in p1 + p2 + p3 ensures c !in p4 { ClassRanges(c); }
    NoDuplicatesAppend(p1 + p2 + p3, p4);
  }
}
