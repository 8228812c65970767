/** The browser's constraint on an `<input type="email">` without `multiple`:
    a form holding such a field is submitted only while the field is empty or
    holds a valid e-mail address in the sense of the HTML standard (a local
    part, "@", and a domain of dot-separated labels). */
module EmailInput {

  predicate IsAsciiAlnum(c: char) {
    'a' <= c <= 'z' || 'A' <= c <= 'Z' || '0' <= c <= '9'
  }

  predicate IsLocalChar(c: char) {
    IsAsciiAlnum(c) || c in ".!#$%&'*+/=?^_`{|}~-"
  }

  predicate IsLabelChar(c: char) {
    IsAsciiAlnum(c) || c == '-'
  }

  predicate AllLocalChars(s: string) {
    s == [] || (IsLocalChar(s[0]) && AllLocalChars(s[1..]))
  }

  predicate AllLabelChars(s: string) {
    s == [] || (IsLabelChar(s[0]) && AllLabelChars(s[1..]))
  }

  /** A domain label: 1 to 63 letters, digits or hyphens, starting and ending
      with a letter or digit. */
  predicate IsLabel(l: string) {
    && 1 <= |l| <= 63
    && IsAsciiAlnum(l[0]) && IsAsciiAlnum(l[|l| - 1])
    && AllLabelChars(l)
  }

  /** The position of the first `c` in `s`, or `|s|` when there is none. */
  function IndexOf(s: string, c: char): (i: nat)
    ensures i <= |s|
    ensures i < |s| ==> s[i] == c
    ensures c !in s[..i]
    decreases |s|
  {
    if s == [] then 0
    else if s[0] == c then 0
    else
      var i := 1 + IndexOf(s[1..], c);
      assert s[..i] == [s[0]] + s[1..][..i - 1];
      i
  }

  /** One or more labels separated by single dots. */
  predicate IsDomain(d: string)
    decreases |d|
  {
    var i := IndexOf(d, '.');
    if i == |d| then IsLabel(d) else IsLabel(d[..i]) && IsDomain(d[i + 1..])
  }

  predicate IsValidEmail(s: string) {
    var at := IndexOf(s, '@');
    && 1 <= at < |s|
    && AllLocalChars(s[..at])
    && IsDomain(s[at + 1..])
  }

  predicate SatisfiesEmailConstraint(value: string) {
    value == "" || IsValidEmail(value)
  }

  lemma {:induction false} LabelCharsHaveNoAt(s: string)
    requires AllLabelChars(s)
    ensures '@' !in s
    decreases |s|
  {
    if s != [] {
      LabelCharsHaveNoAt(s[1..]);
      assert s == [s[0]] + s[1..];
    }
  }

  /** A domain holds no "@": labels are made of letters, digits and hyphens. */
  lemma {:induction false} DomainHasNoAt(d: string)
    requires IsDomain(d)
    ensures '@' !in d
    decreases |d|
  {
    var i := IndexOf(d, '.');
    if i == |d| {
      LabelCharsHaveNoAt(d);
    } else {
      LabelCharsHaveNoAt(d[..i]);
      DomainHasNoAt(d[i + 1..]);
      assert d == d[..i] + [d[i]] + d[i + 1..];
    }
  }

  lemma SplitAround(s: string, at: nat)
    requires at < |s| && s[at] == '@'
    ensures s == s[..at] + "@" + s[at + 1..]
  {
    assert s == s[..at] + [s[at]] + s[at + 1..];
  }

  /** A valid address is a non-empty local part, one "@", and a domain that
      holds no further "@". */
  lemma ValidEmailHasOneAt(s: string)
    requires IsValidEmail(s)
    ensures var at := IndexOf(s, '@');
      && 0 < at < |s|
      && s == s[..at] + "@" + s[at + 1..]
      && '@' !in s[..at] && '@' !in s[at + 1..]
  {
    var at := IndexOf(s, '@');
    DomainHasNoAt(s[at + 1..]);
    SplitAround(s, at);
  }

  lemma LabelExamples()
    ensures IsLabel("brit") && IsLabel("co")
  {
    assert AllLabelChars("t") && AllLabelChars("o");
    assert "brit"[1..] == "rit" && "rit"[1..] == "it" && "it"[1..] == "t" && "co"[1..] == "o";
  }

  lemma DomainExample()
    ensures IsDomain("brit.co")
  {
    var d := "brit.co";
    assert IndexOf("co", '.') == 2;
    LabelExamples();
    assert IsDomain("co");
    assert IndexOf(d, '.') == 4;
    assert d[..4] == "brit" && d[5..] == "co";
  }

  lemma LocalExample()
    ensures AllLocalChars("ann")
  {
    assert "ann"[1..] == "nn" && "nn"[1..] == "n";
    assert AllLocalChars("n");
  }

  lemma AtExample()
    ensures IndexOf("ann@brit.co", '@') == 3
  {
  }

  lemma AddressExample()
    ensures IsValidEmail("ann@brit.co")
  {
    var s := "ann@brit.co";
    AtExample();
    LocalExample();
    DomainExample();
    assert s[..3] == "ann" && s[4..] == "brit.co";
  }

  /** A value without "@" blocks the submission; an empty value or a plain
      address lets it through. */
  lemma ConstraintExamples()
    ensures !SatisfiesEmailConstraint("ann")
    ensures SatisfiesEmailConstraint("")
    ensures SatisfiesEmailConstraint("ann@brit.co")
  {
    assert IndexOf("ann", '@') == 3;
    AddressExample();
  }
}
