/** The password generator component of src/App.jsx: its six state fields,
    the two input handlers and `generatePassword`. The random source is an
    explicit sequence of draws, one index into the pool per character. */
module App {
  import opened CharacterPool

  const InitialPassword: string := "Generated Password"
  const InitialCharLength: nat := 4
  /** The bounds of the length slider. */
  const MinCharLength: nat := 4
  const MaxCharLength: nat := 20
  const NoCharacterSetMessage: string := "Please select at least one character set"

  /** What a press of the generate button leads to: a new password, or the
      error notification shown when no class is selected. */
  datatype Outcome = Generated | Rejected(message: string)

  /** Every draw is a valid index into a pool of `poolSize` characters, as
      the floor of a random fraction of the pool size always is. */
  predicate DrawsInRange(draws: seq<nat>, poolSize: nat) {
    forall k :: 0 <= k < |draws| ==> draws[k] < poolSize
  }

  /** The string the sampling loop builds from the draws: one character per
      draw, appended in order. Character `i` is the pool character that
      draw `i` selects. */
  function Sample(pool: string, draws: seq<nat>): (pw: string)
    requires DrawsInRange(draws, |pool|)
    ensures |pw| == |draws|
    ensures forall i :: 0 <= i < |draws| ==> pw[i] == pool[draws[i]]
  {
    if draws == [] then ""
    else Sample(pool, draws[..|draws| - 1]) + [pool[draws[|draws| - 1]]]
  }

  /** The counted loop of `generatePassword`: `charLength` times, append the
      pool character at the next draw. */
  method FillPassword(charset: string, charLength: nat, draws: seq<nat>) returns (generated: string)
    requires |draws| == charLength && DrawsInRange(draws, |charset|)
    ensures |generated| == charLength
    ensures forall i :: 0 <= i < charLength ==> generated[i] == charset[draws[i]]
    ensures generated == Sample(charset, draws)
  {
    generated := "";
    var i := 0;
    while i < charLength
      invariant 0 <= i <= charLength
      invariant generated == Sample(charset, draws[..i])
    {
      var randomIndex := draws[i];
      assert draws[..i + 1][..i] == draws[..i];
      generated := generated + [charset[randomIndex]];
      i := i + 1;
    }
    assert draws[..i] == draws;
  }

  /** The loop can produce `pw` from `pool` with `n` draws. */
  ghost predicate Producible(pool: string, n: nat, pw: string) {
    exists draws: seq<nat> :: |draws| == n && DrawsInRange(draws, |pool|) && Sample(pool, draws) == pw
  }

  /** The position of the first occurrence of `c` in `pool`. */
  function IndexOf(pool: string, c: char): (i: nat)
    requires c in pool
    ensures i < |pool| && pool[i] == c
  {
    if pool[0] == c then 0 else 1 + IndexOf(pool[1..], c)
  }

  /** The passwords the loop can produce are exactly the strings of the
      requested length whose every character is in the pool. */
  lemma ProducibleIffOverPool(pool: string, n: nat, pw: string)
    ensures Producible(pool, n, pw) <==> |pw| == n && forall i :: 0 <= i < |pw| ==> pw[i] in pool
  {
    if |pw| == n && forall i :: 0 <= i < |pw| ==> pw[i] in pool {
      var draws: seq<nat> := seq(|pw|, i requires 0 <= i < |pw| => IndexOf(pool, pw[i]));
      assert DrawsInRange(draws, |pool|);
      assert Sample(pool, draws) == pw;
    }
  }

  /** Every generated character belongs to one of the enabled classes. */
  lemma SampleFromEnabledClasses(f: Flags, draws: seq<nat>)
    requires DrawsInRange(draws, |Charset(f)|)
    ensures forall i :: 0 <= i < |draws| ==>
              exists k :: f.Enabled(k) && Sample(Charset(f), draws)[i] in ClassChars(k)
  {
    var pw := Sample(Charset(f), draws);
    forall i | 0 <= i < |draws| ensures exists k :: f.Enabled(k) && pw[i] in ClassChars(k) {
      CharsetMembership(f, pw[i]);
    }
  }

  /** Over a pool without repeated characters, distinct draws give distinct
      passwords: each password of the right length over the pool comes from
      exactly one draw sequence, so uniform draws give uniform passwords. */
  lemma SampleInjective(pool: string, d1: seq<nat>, d2: seq<nat>)
    requires NoDuplicates(pool)
    requires DrawsInRange(d1, |pool|) && DrawsInRange(d2, |pool|)
    requires Sample(pool, d1) == Sample(pool, d2)
    ensures d1 == d2
  {
    var pw1, pw2 := Sample(pool, d1), Sample(pool, d2);
    assert |d1| == |pw1| == |pw2| == |d2|;
    forall i | 0 <= i < |d1| ensures d1[i] == d2[i] {
      assert pool[d1[i]] == pw1[i] == pw2[i] == pool[d2[i]];
    }
  }

  /** With only numbers selected, every character is a digit. */
  lemma NumbersOnlyGivesDigits(draws: seq<nat>)
    requires DrawsInRange(draws, 10)
    ensures forall i :: 0 <= i < |draws| ==>
              '0' <= Sample(Charset(Flags(false, false, true, false)), draws)[i] <= '9'
  {
    var pw := Sample(Charset(Flags(false, false, true, false)), draws);
    forall i | 0 <= i < |draws| ensures '0' <= pw[i] <= '9' {
      ClassRanges(pw[i]);
    }
  }

  /** With uppercase and symbols selected, every character is an upper-case
      letter or one of the fifteen symbols. */
  lemma UppercaseAndSymbolsOnly(draws: seq<nat>)
    requires DrawsInRange(draws, 41)
    ensures forall i :: 0 <= i < |draws| ==>
              var c := Sample(Charset(Flags(true, false, false, true)), draws)[i];
              ('A' <= c <= 'Z') || c in SymbolChars
  {
    var f := Flags(true, false, false, true);
    var pw := Sample(Charset(f), draws);
    forall i | 0 <= i < |draws| ensures ('A' <= pw[i] <= 'Z') || pw[i] in SymbolChars {
      CharsetMembership(f, pw[i]);
      ClassRanges(pw[i]);
    }
  }

  /** The state of the component. */
  class Generator {
    var password: string
    var charLength: nat
    var includeUppercase: bool
    var includeLowercase: bool
    var includeNumbers: bool
    var includeSymbols: bool

    /** The length stays within the slider's bounds. */
    ghost predicate Valid()
      reads this
    {
      MinCharLength <= charLength <= MaxCharLength
    }

    /** The four include flags, as one value. */
    function Selection(): Flags
      reads this
    {
      Flags(includeUppercase, includeLowercase, includeNumbers, includeSymbols)
    }

    constructor ()
      ensures Valid()
      ensures password == InitialPassword && charLength == InitialCharLength
      ensures Selection() == NoFlags
    {
      password := InitialPassword;
      charLength := InitialCharLength;
      includeUppercase, includeLowercase, includeNumbers, includeSymbols := false, false, false, false;
    }

    /** A checkbox changed: set the flag of the class whose checkbox is
        called `name`; any other name changes nothing. */
    method HandleCheckboxChange(name: string, checked: bool)
      requires Valid()
      modifies this
      ensures Valid()
      ensures forall k :: Selection().Enabled(k) == if name == CheckboxName(k) then checked else old(Selection()).Enabled(k)
      ensures (forall k :: name != CheckboxName(k)) ==> Selection() == old(Selection())
      ensures password == old(password) && charLength == old(charLength)
    {
      assert CheckboxName(Uppercase) == "uppercase" && CheckboxName(Lowercase) == "lowercase";
      assert CheckboxName(Numbers) == "numbers" && CheckboxName(Symbols) == "symbols";
      match name {
        case "uppercase" => includeUppercase := checked;
        case "lowercase" => includeLowercase := checked;
        case "numbers" => includeNumbers := checked;
        case "symbols" => includeSymbols := checked;
        case _ =>
      }
    }

    /** The slider moved to `length`; the slider only offers 4 to 20. */
    method HandleCharLengthChange(length: nat)
      requires MinCharLength <= length <= MaxCharLength
      modifies this
      ensures Valid()
      ensures charLength == length
      ensures Selection() == old(Selection()) && password == old(password)
    {
      charLength := length;
    }

    /** The generate button: with no class selected, report the error and
        keep the old password; otherwise replace the password with the
        `charLength` characters that the draws select from the pool. */
    method GeneratePassword(draws: seq<nat>) returns (outcome: Outcome)
      requires Charset(Selection()) != [] ==> |draws| == charLength && DrawsInRange(draws, |Charset(Selection())|)
      modifies this`password
      requires Valid()
      ensures Valid()
      ensures outcome == if old(Selection()) == NoFlags then Rejected(NoCharacterSetMessage) else Generated
      ensures outcome.Rejected? ==> password == old(password)
      ensures outcome == Generated ==> password == Sample(Charset(Selection()), draws)
      ensures outcome == Generated ==> |password| == charLength
      ensures outcome == Generated ==> forall i :: 0 <= i < |password| ==> password[i] in Charset(Selection())
    {
      var charset := Charset(Selection());
      if charset == [] {
        return Rejected(NoCharacterSetMessage);
      }
      var generatedPassword := FillPassword(charset, charLength, draws);
      password := generatedPassword;
      outcome := Generated;
    }
  }
}
