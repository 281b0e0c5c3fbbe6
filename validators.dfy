/**
 * The checks applied to every user-supplied value before anything is generated
 * (Projection\Console\Command\Validators). Each returns the accepted value, possibly
 * normalised, or an InvalidArgumentException with a fixed message. None has an
 * effect. A PHP null reaches them as the empty string (see Given).
 *
 * Two of the patterns end with PCRE's `$`, which outside multiline mode also
 * matches just before a final newline: the accepted languages below include one
 * trailing "\n", exactly as preg_match does.
 */
module Validators {
  import opened Strings
  import opened Outcomes

  /** An option value as the string functions read it: null reads as "". */
  function Given(o: Option<string>): string
  {
    if o.Some? then o.value else ""
  }

  function Reject(message: string): Error
  {
    InvalidArgument(message, None)
  }

  const ProjectNameMessage := "A project's name can contain only alphanumeric characters, dashes and underscores."
  const NamespaceMessage := "You must enter a valid PHP namespace."
  const NameMessage := "You must enter the project author's name."
  const EmailMessage := "You must enter a valid email address."
  const LicenseYearsMessage := "License years must be a single year or a range."
  const DirectoryMessage := "You must enter a valid directory name."
  const ClassNameMessage := "You must enter a valid class name."

  /** The licenses that have templates, in the order the error message lists them. */
  const Licenses: seq<string> := ["gpl", "mit", "lgpl"]

  function LicenseMessage(license: string): string
  {
    "License \"" + license + "\" is not valid. Valid licenses are: gpl, mit, lgpl."
  }

  predicate IsDigit(c: char)
  {
    '0' <= c <= '9'
  }

  /** The character class [a-zA-Z0-9\_\-]. */
  predicate IsNameChar(c: char)
  {
    'a' <= c <= 'z' || 'A' <= c <= 'Z' || IsDigit(c) || c == '_' || c == '-'
  }

  /** The character class [a-zA-Z0-9\\_]. */
  predicate IsNamespaceChar(c: char)
  {
    'a' <= c <= 'z' || 'A' <= c <= 'Z' || IsDigit(c) || c == '\\' || c == '_'
  }

  /** Where an unanchored search for [a-zA-Z0-9\_\-]+ first succeeds: the leftmost
      character of the class, if any. */
  function FindNameChar(s: string): (r: Option<nat>)
    ensures r.Some? ==> r.value < |s| && IsNameChar(s[r.value])
    ensures r.Some? ==> forall j :: 0 <= j < r.value ==> !IsNameChar(s[j])
    ensures r.None? ==> forall j :: 0 <= j < |s| ==> !IsNameChar(s[j])
  {
    if s == [] then None
    else if IsNameChar(s[0]) then Some(0)
    else
      match FindNameChar(s[1..])
      case None => None
      case Some(k) => Some(k + 1)
  }

  /** The part of the subject a pattern ending in `$` has to match in full: the subject
      without its final newline, if it has one. */
  function BeforeEnd(s: string): (w: string)
    ensures w == s || w + "\n" == s
  {
    if s != [] && s[|s| - 1] == '\n' then s[..|s| - 1] else s
  }

  /** [a-zA-Z0-9\\_]+ matched against the whole of `w`. */
  predicate NamespaceRun(w: string)
  {
    w != [] && OnlyNamespaceChars(w)
  }

  predicate OnlyNamespaceChars(w: string)
  {
    w == [] || (IsNamespaceChar(w[0]) && OnlyNamespaceChars(w[1..]))
  }

  lemma {:induction false} OnlyNamespaceCharsExactly(w: string)
    ensures OnlyNamespaceChars(w) <==> forall i :: 0 <= i < |w| ==> IsNamespaceChar(w[i])
    decreases |w|
  {
    if w != [] {
      OnlyNamespaceCharsExactly(w[1..]);
      assert forall i :: 1 <= i < |w| ==> w[i] == w[1..][i - 1];
    }
  }

  /** [0-9]{4} */
  predicate FourDigits(w: string)
  {
    |w| == 4 && IsDigit(w[0]) && IsDigit(w[1]) && IsDigit(w[2]) && IsDigit(w[3])
  }

  /** ([0-9]{4})(\-[0-9]{4})? matched against the whole of `w`. */
  predicate YearsShape(w: string)
  {
    FourDigits(w) || (|w| == 9 && FourDigits(w[..4]) && w[4] == '-' && FourDigits(w[5..]))
  }

  /** validateProjectName: an unanchored pattern, so one suitable character anywhere is
      enough; the name is returned as given. */
  function ValidateProjectName(name: string): (r: Result<string>)
    ensures r.Ok? ==> r.value == name
    ensures r.Err? ==> r.error == Reject(ProjectNameMessage)
  {
    if FindNameChar(name).None? then Err(Reject(ProjectNameMessage)) else Ok(name)
  }

  /** validateNamespace: every `/` becomes `\`, then the whole result must be letters,
      digits, backslashes and underscores. */
  function ValidateNamespace(namespace: string): (r: Result<string>)
    ensures r.Ok? ==> r.value == Translate(namespace, '/', '\\')
    ensures r.Err? ==> r.error == Reject(NamespaceMessage)
  {
    var ns := Translate(namespace, '/', '\\');
    if NamespaceRun(BeforeEnd(ns)) then Ok(ns) else Err(Reject(NamespaceMessage))
  }

  /** validateName: anything but the empty string (or null). */
  function ValidateName(name: string): (r: Result<string>)
    ensures r.Ok? <==> name != ""
    ensures r.Ok? ==> r.value == name
    ensures r.Err? ==> r.error == Reject(NameMessage)
  {
    if name == "" then Err(Reject(NameMessage)) else Ok(name)
  }

  /** validateEmail, with filter_var($email, FILTER_VALIDATE_EMAIL) left as the predicate
      `isEmail`. */
  function ValidateEmail(isEmail: string -> bool, email: string): (r: Result<string>)
    ensures r.Ok? <==> isEmail(email)
    ensures r.Ok? ==> r.value == email
    ensures r.Err? ==> r.error == Reject(EmailMessage)
  {
    if isEmail(email) then Ok(email) else Err(Reject(EmailMessage))
  }

  /** validateLicense: one of the licenses there are templates for (in_array; the
      candidates are not numeric, so loose comparison is string equality). */
  function ValidateLicense(license: string): (r: Result<string>)
    ensures r.Ok? <==> license == "gpl" || license == "mit" || license == "lgpl"
    ensures r.Ok? ==> r.value == license
    ensures r.Err? ==> r.error == Reject(LicenseMessage(license))
  {
    if license in Licenses then Ok(license) else Err(Reject(LicenseMessage(license)))
  }

  /** validateLicenseYears: ^([0-9]{4})(\-[0-9]{4})?$ */
  function ValidateLicenseYears(years: string): (r: Result<string>)
    ensures r.Ok? ==> r.value == years
    ensures r.Err? ==> r.error == Reject(LicenseYearsMessage)
  {
    if YearsShape(BeforeEnd(years)) then Ok(years) else Err(Reject(LicenseYearsMessage))
  }

  /** validateDirectory: anything but the empty string (or null). */
  function ValidateDirectory(directory: string): (r: Result<string>)
    ensures r.Ok? <==> directory != ""
    ensures r.Ok? ==> r.value == directory
    ensures r.Err? ==> r.error == Reject(DirectoryMessage)
  {
    if directory == "" then Err(Reject(DirectoryMessage)) else Ok(directory)
  }

  /** validateClassName: anything but the empty string, with every `/` turned into `\`. */
  function ValidateClassName(className: string): (r: Result<string>)
    ensures r.Ok? <==> className != ""
    ensures r.Ok? ==> |r.value| == |className| && '/' !in r.value
    ensures r.Ok? ==> forall i :: 0 <= i < |className| ==>
      r.value[i] == (if className[i] == '/' then '\\' else className[i])
    ensures r.Err? ==> r.error == Reject(ClassNameMessage)
  {
    if className == "" then Err(Reject(ClassNameMessage))
    else
      TranslateRemoves(className, '/', '\\');
      Ok(Translate(className, '/', '\\'))
  }

  // ---------------------------------------------------------------------------
  // What the validators accept

  /** A project name is accepted exactly when one of its characters is a letter, a digit,
      `_` or `-`; whatever else it contains. */
  lemma ProjectNameAccepted(name: string)
    ensures ValidateProjectName(name).Ok? <==> exists i :: 0 <= i < |name| && IsNameChar(name[i])
  {
    var f := FindNameChar(name);
    if f.Some? {
      assert IsNameChar(name[f.value]);
    }
  }

  /** Being unanchored, the pattern accepts names with spaces and punctuation, and it
      rejects the empty name. */
  lemma ProjectNameExamples()
    ensures ValidateProjectName("my project!") == Ok("my project!")
    ensures ValidateProjectName(" ?") == Err(Reject(ProjectNameMessage))
    ensures ValidateProjectName("").Err?
  {
    assert "my project!"[0] == 'm';
    assert FindNameChar(" ?"[1..]) == None;
  }

  /** A namespace without newlines is accepted exactly when it is not empty and every
      character is a letter, a digit, `_`, `\` or `/` (which becomes `\`). */
  lemma NamespaceAccepted(namespace: string)
    requires '\n' !in namespace
    ensures ValidateNamespace(namespace).Ok? <==>
      namespace != "" &&
      forall i :: 0 <= i < |namespace| ==> namespace[i] == '/' || IsNamespaceChar(namespace[i])
  {
    var ns := Translate(namespace, '/', '\\');
    assert BeforeEnd(ns) == ns by {
      if ns != [] {
        assert ns[|ns| - 1] != '\n';
      }
    }
    OnlyNamespaceCharsExactly(ns);
  }

  /** An accepted namespace contains no `/`, and is accepted again unchanged. */
  lemma NamespaceNormalised(namespace: string)
    requires ValidateNamespace(namespace).Ok?
    ensures '/' !in ValidateNamespace(namespace).value
    ensures ValidateNamespace(ValidateNamespace(namespace).value) == ValidateNamespace(namespace)
  {
    var ns := Translate(namespace, '/', '\\');
    TranslateRemoves(namespace, '/', '\\');
    TranslateNoop(ns, '/', '\\');
  }

  /** PCRE's `$` lets one final newline through: an accepted namespace followed by "\n" is
      accepted too, newline included. */
  lemma NamespaceFinalNewline(namespace: string)
    requires '\n' !in namespace && ValidateNamespace(namespace).Ok?
    ensures ValidateNamespace(namespace + "\n") == Ok(ValidateNamespace(namespace).value + "\n")
  {
    var ns := Translate(namespace, '/', '\\');
    var nl := Translate(namespace + "\n", '/', '\\');
    assert nl == ns + "\n";
    assert BeforeEnd(nl) == ns;
    assert BeforeEnd(ns) == ns by {
      assert ns != [] && ns[|ns| - 1] == (if namespace[|ns| - 1] == '/' then '\\' else namespace[|ns| - 1]);
    }
  }

  /** A license is accepted exactly when it is gpl, mit or lgpl: the "lesser-gpl" the
      command's help text offers is refused. */
  lemma LicenseExamples()
    ensures ValidateLicense("lesser-gpl") == Err(Reject(LicenseMessage("lesser-gpl")))
    ensures ValidateLicense("mit") == Ok("mit")
  {
  }

  /** The four digits of a year below 10000, zero-padded. */
  function YearText(y: nat): (t: string)
    requires y < 10000
    ensures FourDigits(t)
  {
    [Digit(y / 1000), Digit(y / 100 % 10), Digit(y / 10 % 10), Digit(y % 10)]
  }

  function Digit(d: nat): (c: char)
    requires d < 10
    ensures IsDigit(c)
  {
    ('0' as int + d) as char
  }

  /** Any single year and any pair of years is accepted, whether or not the first comes
      after the second. */
  lemma LicenseYearsAccepted(a: nat, b: nat)
    requires a < 10000 && b < 10000
    ensures ValidateLicenseYears(YearText(a)) == Ok(YearText(a))
    ensures ValidateLicenseYears(YearText(a) + "-" + YearText(b)) == Ok(YearText(a) + "-" + YearText(b))
  {
    var s := YearText(a) + "-" + YearText(b);
    assert s[..4] == YearText(a) && s[5..] == YearText(b);
  }

  /** Without a final newline, the accepted years are exactly four digits, or four digits,
      a dash and four digits; so years of other lengths are refused. */
  lemma LicenseYearsLength(years: string)
    requires ValidateLicenseYears(years).Ok? && (years == [] || years[|years| - 1] != '\n')
    ensures |years| == 4 || (|years| == 9 && years[4] == '-')
    ensures forall i :: 0 <= i < |years| && i != 4 ==> IsDigit(years[i])
  {
    assert BeforeEnd(years) == years;
    if |years| == 9 {
      assert forall i :: 5 <= i < 9 ==> years[i] == years[5..][i - 5];
    }
  }

  lemma LicenseYearsExamples()
    ensures ValidateLicenseYears("2024-2012").Ok?
    ensures ValidateLicenseYears("2024\n").Ok?
    ensures ValidateLicenseYears("24").Err?
    ensures ValidateLicenseYears("2012-24").Err?
    ensures ValidateLicenseYears("2012/2024").Err?
  {
    assert "2024-2012"[..4] == "2024" && "2024-2012"[5..] == "2012";
    assert BeforeEnd("2024\n") == "2024";
  }

  /** An accepted class name is accepted again unchanged. */
  lemma ClassNameIdempotent(className: string)
    requires ValidateClassName(className).Ok?
    ensures ValidateClassName(ValidateClassName(className).value) == ValidateClassName(className)
  {
    TranslateRemoves(className, '/', '\\');
    TranslateNoop(Translate(className, '/', '\\'), '/', '\\');
  }
}
