/**
 * Client-side credential checks of the login and registration pages
 * (`AuthManager` in static/auth.js): the password-strength scorer and its
 * meter banding, the per-field validator with its ordered rule chain, the
 * email shape, the form-level check, and the remember-me storage rule.
 */
module Auth {
  import opened Js

  // ---------------------------------------------------------------------------
  // Character classes of the strength rules (the regex classes are ASCII ranges)

  predicate IsLower(c: char) { 'a' <= c <= 'z' }
  predicate IsUpper(c: char) { 'A' <= c <= 'Z' }
  predicate IsAlphanumeric(c: char) { IsLower(c) || IsUpper(c) || IsDigit(c) }

  datatype CharClass = LowerClass | UpperClass | DigitClass | OtherClass

  predicate InClass(c: char, k: CharClass) {
    match k
    case LowerClass => IsLower(c)
    case UpperClass => IsUpper(c)
    case DigitClass => IsDigit(c)
    case OtherClass => !IsAlphanumeric(c)
  }

  /** `/[class]/.test(s)`: some character of `s` belongs to the class. */
  predicate TestClass(k: CharClass, s: string) {
    exists i :: 0 <= i < |s| && InClass(s[i], k)
  }

  // ---------------------------------------------------------------------------
  // Password strength

  /** The five strength rules, in the order the scorer applies them. */
  datatype StrengthRule = MinLength | Lowercase | Uppercase | Number | Special

  const StrengthRules: seq<StrengthRule> := [MinLength, Lowercase, Uppercase, Number, Special]

  predicate Satisfies(password: string, rule: StrengthRule) {
    match rule
    case MinLength => Utf16Length(password) >= 8
    case Lowercase => TestClass(LowerClass, password)
    case Uppercase => TestClass(UpperClass, password)
    case Number => TestClass(DigitClass, password)
    case Special => TestClass(OtherClass, password)
  }

  /** The feedback line an unmet rule contributes. */
  function Hint(rule: StrengthRule): string {
    match rule
    case MinLength => "At least 8 characters"
    case Lowercase => "Lowercase letter"
    case Uppercase => "Uppercase letter"
    case Number => "Number"
    case Special => "Special character"
  }

  function MissIfUnmet(password: string, rule: StrengthRule): seq<StrengthRule> {
    if Satisfies(password, rule) then [] else [rule]
  }

  /** How many rules of `rules` the password meets. */
  function MetCount(rules: seq<StrengthRule>, password: string): nat {
    if rules == [] then 0
    else (if Satisfies(password, rules[0]) then 1 else 0) + MetCount(rules[1..], password)
  }

  /** The rules of `rules` that `password` misses, in order. */
  function Unmet(rules: seq<StrengthRule>, password: string): seq<StrengthRule>
  {
    if rules == [] then []
    else MissIfUnmet(password, rules[0]) + Unmet(rules[1..], password)
  }

  /** The unmet list holds exactly the listed rules the password misses. */
  lemma {:induction false} UnmetMembers(rules: seq<StrengthRule>, password: string)
    ensures forall x :: x in Unmet(rules, password) <==> x in rules && !Satisfies(password, x)
  {
    if rules != [] {
      UnmetMembers(rules[1..], password);
    }
  }

  function Hints(rules: seq<StrengthRule>): (r: seq<string>)
    ensures |r| == |rules|
  {
    if rules == [] then [] else [Hint(rules[0])] + Hints(rules[1..])
  }

  /** What the strength meter is given: 25 points per met rule, capped at 100. */
  function StrengthScore(password: string): int {
    Min(25 * MetCount(StrengthRules, password), 100)
  }

  /** One hint per unmet rule, in rule order. */
  function StrengthFeedback(password: string): seq<string> {
    Hints(Unmet(StrengthRules, password))
  }

  function Min(a: int, b: int): int { if a <= b then a else b }

  /** The hint a single rule contributes: none when it is met. */
  function HintIfUnmet(password: string, rule: StrengthRule): seq<string> {
    if Satisfies(password, rule) then [] else [Hint(rule)]
  }

  /** The points a single rule contributes. */
  function PointsIfMet(password: string, rule: StrengthRule): int {
    if Satisfies(password, rule) then 25 else 0
  }

  lemma {:induction false} HintsAppend(a: seq<StrengthRule>, b: seq<StrengthRule>)
    ensures Hints(a + b) == Hints(a) + Hints(b)
  {
    if a != [] {
      assert (a + b)[0] == a[0] && (a + b)[1..] == a[1..] + b;
      HintsAppend(a[1..], b);
      assert Hints(a + b) == [Hint(a[0])] + Hints(a[1..] + b);
    } else {
      assert a + b == b;
    }
  }

  lemma HintsOfOne(password: string, rule: StrengthRule)
    ensures Hints(MissIfUnmet(password, rule)) == HintIfUnmet(password, rule)
  {
  }

  /** Feedback and score of the five rules, written out one rule at a time. */
  lemma StrengthUnfolded(password: string)
    ensures StrengthFeedback(password)
      == HintIfUnmet(password, MinLength) + HintIfUnmet(password, Lowercase) + HintIfUnmet(password, Uppercase)
         + HintIfUnmet(password, Number) + HintIfUnmet(password, Special)
    ensures 25 * MetCount(StrengthRules, password)
      == PointsIfMet(password, MinLength) + PointsIfMet(password, Lowercase) + PointsIfMet(password, Uppercase)
         + PointsIfMet(password, Number) + PointsIfMet(password, Special)
  {
    var s4: seq<StrengthRule> := [Special];
    var s3: seq<StrengthRule> := [Number] + s4;
    var s2: seq<StrengthRule> := [Uppercase] + s3;
    var s1: seq<StrengthRule> := [Lowercase] + s2;
    var s0: seq<StrengthRule> := [MinLength] + s1;
    assert s0 == StrengthRules;
    assert s4[1..] == [] && s3[1..] == s4 && s2[1..] == s3 && s1[1..] == s2 && s0[1..] == s1;
    var h0, h1, h2, h3, h4 := HintIfUnmet(password, MinLength), HintIfUnmet(password, Lowercase),
      HintIfUnmet(password, Uppercase), HintIfUnmet(password, Number), HintIfUnmet(password, Special);
    HintsStep(password, s4);
    assert Hints(Unmet(s4, password)) == h4;
    HintsStep(password, s3);
    HintsStep(password, s2);
    HintsStep(password, s1);
    HintsStep(password, s0);
    assert StrengthFeedback(password) == h0 + (h1 + (h2 + (h3 + h4)));
    ConcatRightToLeft(h0, h1, h2, h3, h4);
    assert 25 * MetCount(s4, password) == PointsIfMet(password, Special);
    assert 25 * MetCount(s3, password) == PointsIfMet(password, Number) + 25 * MetCount(s4, password);
    assert 25 * MetCount(s2, password) == PointsIfMet(password, Uppercase) + 25 * MetCount(s3, password);
    assert 25 * MetCount(s1, password) == PointsIfMet(password, Lowercase) + 25 * MetCount(s2, password);
    assert 25 * MetCount(s0, password) == PointsIfMet(password, MinLength) + 25 * MetCount(s1, password);
  }

  lemma ConcatRightToLeft<T>(a: seq<T>, b: seq<T>, c: seq<T>, d: seq<T>, e: seq<T>)
    ensures a + (b + (c + (d + e))) == a + b + c + d + e
  {
  }

  /** One step of the feedback list: the first rule's hint, then the rest. */
  lemma HintsStep(password: string, rules: seq<StrengthRule>)
    requires rules != []
    ensures Hints(Unmet(rules, password)) == HintIfUnmet(password, rules[0]) + Hints(Unmet(rules[1..], password))
  {
    HintsAppend(MissIfUnmet(password, rules[0]), Unmet(rules[1..], password));
    HintsOfOne(password, rules[0]);
  }

  /**
   * `calculatePasswordStrength`: accumulates the score and the feedback list one
   * rule at a time.
   */
  method CalculatePasswordStrength(password: string) returns (score: int, feedback: seq<string>)
    ensures score == StrengthScore(password)
    ensures feedback == StrengthFeedback(password)
    ensures score in {0, 25, 50, 75, 100}
  {
    score := 0;
    feedback := [];
    if Utf16Length(password) >= 8 { score := score + 25; } else { feedback := feedback + ["At least 8 characters"]; }
    assert score == PointsIfMet(password, MinLength) && feedback == HintIfUnmet(password, MinLength);
    if TestClass(LowerClass, password) { score := score + 25; } else { feedback := feedback + ["Lowercase letter"]; }
    assert score == PointsIfMet(password, MinLength) + PointsIfMet(password, Lowercase);
    assert feedback == HintIfUnmet(password, MinLength) + HintIfUnmet(password, Lowercase);
    if TestClass(UpperClass, password) { score := score + 25; } else { feedback := feedback + ["Uppercase letter"]; }
    assert score == PointsIfMet(password, MinLength) + PointsIfMet(password, Lowercase)
                   + PointsIfMet(password, Uppercase);
    assert feedback == HintIfUnmet(password, MinLength) + HintIfUnmet(password, Lowercase)
                      + HintIfUnmet(password, Uppercase);
    if TestClass(DigitClass, password) { score := score + 25; } else { feedback := feedback + ["Number"]; }
    assert score == PointsIfMet(password, MinLength) + PointsIfMet(password, Lowercase)
                   + PointsIfMet(password, Uppercase) + PointsIfMet(password, Number);
    assert feedback == HintIfUnmet(password, MinLength) + HintIfUnmet(password, Lowercase)
                      + HintIfUnmet(password, Uppercase) + HintIfUnmet(password, Number);
    if TestClass(OtherClass, password) { score := score + 25; } else { feedback := feedback + ["Special character"]; }
    score := Min(score, 100);
    StrengthUnfolded(password);
  }

  /** Every rule is either met or unmet, never both. */
  lemma {:induction false} MetUnmetPartition(rules: seq<StrengthRule>, password: string)
    ensures MetCount(rules, password) + |Unmet(rules, password)| == |rules|
  {
    if rules != [] {
      MetUnmetPartition(rules[1..], password);
    }
  }

  /**
   * The score can be read off the feedback: min(100, 25 * (5 - |feedback|)); so
   * it is always one of 0, 25, 50, 75, 100.
   */
  lemma ScoreFromFeedback(password: string)
    ensures StrengthScore(password) == Min(100, 25 * (5 - |StrengthFeedback(password)|))
    ensures StrengthScore(password) in {0, 25, 50, 75, 100}
  {
    MetUnmetPartition(StrengthRules, password);
  }

  lemma EveryRuleListed(rule: StrengthRule)
    ensures rule in StrengthRules
  {
    assert StrengthRules[0] == MinLength && StrengthRules[1] == Lowercase && StrengthRules[2] == Uppercase;
    assert StrengthRules[3] == Number && StrengthRules[4] == Special;
  }

  /** No feedback exactly when all five rules are met. */
  lemma FeedbackEmptyIffAllMet(password: string)
    ensures StrengthFeedback(password) == [] <==> forall r :: Satisfies(password, r)
  {
    var u := Unmet(StrengthRules, password);
    UnmetMembers(StrengthRules, password);
    if u == [] {
      forall r: StrengthRule ensures Satisfies(password, r) {
        EveryRuleListed(r);
      }
    } else {
      assert u[0] in u;
    }
  }

  /** Different rules have different hints. */
  lemma {:induction false} HintsMembership(rules: seq<StrengthRule>, rule: StrengthRule)
    ensures Hint(rule) in Hints(rules) <==> rule in rules
  {
    if rules != [] {
      HintsMembership(rules[1..], rule);
      assert Hints(rules) == [Hint(rules[0])] + Hints(rules[1..]);
      assert rules == [rules[0]] + rules[1..];
    }
  }

  /** A hint appears in the feedback exactly when its rule is unmet. */
  lemma HintShownIffUnmet(password: string, rule: StrengthRule)
    ensures Hint(rule) in StrengthFeedback(password) <==> !Satisfies(password, rule)
  {
    EveryRuleListed(rule);
    UnmetMembers(StrengthRules, password);
    HintsMembership(Unmet(StrengthRules, password), rule);
  }

  /** The empty password scores 0 and receives all five hints. */
  lemma EmptyPasswordStrength()
    ensures StrengthScore("") == 0
    ensures StrengthFeedback("") == ["At least 8 characters", "Lowercase letter",
                                     "Uppercase letter", "Number", "Special character"]
  {
    assert !TestClass(OtherClass, "");
    StrengthUnfolded("");
  }

  // ---------------------------------------------------------------------------
  // The strength meter

  datatype Band = Weak | Fair | Good | Strong {
    /** The meter's text. */
    function Label(): string {
      match this
      case Weak => "Weak password"
      case Fair => "Fair password"
      case Good => "Good password"
      case Strong => "Strong password"
    }
  }

  /** `updateStrengthMeter`: which band a score falls in. */
  function BandOf(score: int): Band {
    if score < 25 then Weak
    else if score < 50 then Fair
    else if score < 75 then Good
    else Strong
  }

  /**
   * On a real password score the band counts the rules met: Weak for none,
   * Fair for one, Good for two, and Strong for three or more; the meter's text
   * names the band.
   */
  lemma BandCountsRules(password: string)
    ensures var n := MetCount(StrengthRules, password);
      && (BandOf(StrengthScore(password)) == Weak <==> n == 0)
      && (BandOf(StrengthScore(password)) == Fair <==> n == 1)
      && (BandOf(StrengthScore(password)) == Good <==> n == 2)
      && (BandOf(StrengthScore(password)) == Strong <==> n >= 3)
      && (BandOf(StrengthScore(password)).Label() == "Weak password" <==> n == 0)
      && (BandOf(StrengthScore(password)).Label() == "Fair password" <==> n == 1)
      && (BandOf(StrengthScore(password)).Label() == "Good password" <==> n == 2)
      && (BandOf(StrengthScore(password)).Label() == "Strong password" <==> n >= 3)
  {
    MetUnmetPartition(StrengthRules, password);
  }

  // ---------------------------------------------------------------------------
  // Email shape

  /** `[^\s@]`: a character allowed in each of the three runs of the pattern. */
  predicate PlainChar(c: char) { !IsWhiteSpace(c) && c != '@' }

  predicate AllPlain(s: string) {
    forall i :: 0 <= i < |s| ==> PlainChar(s[i])
  }

  /**
   * The language of `/^[^\s@]+@[^\s@]+\.[^\s@]+$/`: a non-empty run, an '@', a
   * non-empty run, a '.', a non-empty run, no run holding whitespace or '@'.
   */
  ghost predicate EmailPattern(s: string) {
    exists at, dot :: 0 < at && at + 1 < dot && dot + 1 < |s| && s[at] == '@' && s[dot] == '.'
      && AllPlain(s[..at]) && AllPlain(s[at + 1..dot]) && AllPlain(s[dot + 1..])
  }

  /** The first position of `c` in `s`, or |s| when there is none. */
  function FirstIndex(s: string, c: char): (k: nat)
    ensures k <= |s|
    ensures k < |s| ==> s[k] == c
    ensures forall i :: 0 <= i < k ==> s[i] != c
  {
    if s == [] then 0
    else if s[0] == c then 0
    else 1 + FirstIndex(s[1..], c)
  }

  /** Some '.' of `t` has a character on each side. */
  predicate HasInnerDot(t: string) {
    exists d :: 0 < d < |t| - 1 && t[d] == '.'
  }

  /** `isValidEmail`, decided by one split at the first '@'. */
  predicate IsValidEmail(email: string) {
    var at := FirstIndex(email, '@');
    0 < at < |email| && AllPlain(email[..at]) && AllPlain(email[at + 1..])
    && HasInnerDot(email[at + 1..])
  }

  /** Joining two plain runs around a plain character gives a plain run. */
  lemma PlainJoin(a: string, c: char, b: string)
    requires AllPlain(a) && PlainChar(c) && AllPlain(b)
    ensures AllPlain(a + [c] + b)
  {
    var w := a + [c] + b;
    forall i | 0 <= i < |w| ensures PlainChar(w[i]) {
      if i < |a| { assert w[i] == a[i]; }
      else if i > |a| { assert w[i] == b[i - |a| - 1]; }
    }
  }

  /** The parts of a plain run are plain. */
  lemma PlainParts(w: string, d: int)
    requires AllPlain(w) && 0 <= d < |w|
    ensures AllPlain(w[..d]) && AllPlain(w[d + 1..])
  {
    var a, b := w[..d], w[d + 1..];
    forall i | 0 <= i < |a| ensures PlainChar(a[i]) { assert a[i] == w[i]; }
    forall i | 0 <= i < |b| ensures PlainChar(b[i]) { assert b[i] == w[d + 1 + i]; }
  }

  /** The split at the first '@' accepts exactly the language of the pattern. */
  lemma IsValidEmailMatchesPattern(email: string)
    ensures IsValidEmail(email) <==> EmailPattern(email)
  {
    if IsValidEmail(email) {
      ValidEmailHasPattern(email);
    }
    if EmailPattern(email) {
      PatternIsValidEmail(email);
    }
  }

  lemma ValidEmailHasPattern(email: string)
    requires IsValidEmail(email)
    ensures EmailPattern(email)
  {
    var at := FirstIndex(email, '@');
    var t := email[at + 1..];
    var d :| 0 < d < |t| - 1 && t[d] == '.';
    var dot := at + 1 + d;
    PlainParts(t, d);
    assert email[at + 1..dot] == t[..d];
    assert email[dot + 1..] == t[d + 1..];
    assert email[dot] == '.';
  }

  lemma PatternIsValidEmail(email: string)
    requires EmailPattern(email)
    ensures IsValidEmail(email)
  {
    var at, dot :| 0 < at && at + 1 < dot && dot + 1 < |email| && email[at] == '@' && email[dot] == '.'
      && AllPlain(email[..at]) && AllPlain(email[at + 1..dot]) && AllPlain(email[dot + 1..]);
    SplitIsValidEmail(email, at, dot);
  }

  lemma SplitIsValidEmail(email: string, at: int, dot: int)
    requires 0 < at && at + 1 < dot && dot + 1 < |email| && email[at] == '@' && email[dot] == '.'
    requires AllPlain(email[..at]) && AllPlain(email[at + 1..dot]) && AllPlain(email[dot + 1..])
    ensures IsValidEmail(email)
  {
    NoAtInPlain(email, at);
    FirstIndexIs(email, '@', at);
    var t := email[at + 1..];
    var left, right := email[at + 1..dot], email[dot + 1..];
    assert t == left + [email[dot]] + right;
    PlainJoin(left, email[dot], right);
    assert t[dot - at - 1] == '.';
  }

  lemma NoAtInPlain(s: string, k: int)
    requires 0 <= k <= |s| && AllPlain(s[..k])
    ensures forall i :: 0 <= i < k ==> s[i] != '@'
  {
    var p := s[..k];
    forall i | 0 <= i < k ensures s[i] != '@' {
      assert s[i] == p[i];
    }
  }

  /** The first position of `c` is the one with no `c` before it. */
  lemma {:induction false} FirstIndexIs(s: string, c: char, k: nat)
    requires k < |s| && s[k] == c
    requires forall i :: 0 <= i < k ==> s[i] != c
    ensures FirstIndex(s, c) == k
  {
    if k > 0 {
      FirstIndexIs(s[1..], c, k - 1);
    }
  }

  /**
   * What an accepted address looks like: exactly one '@' with something before
   * it, no whitespace anywhere, and after the '@' a '.' with at least one
   * character on each side.
   */
  lemma AcceptedEmailShape(email: string)
    requires IsValidEmail(email)
    ensures forall i :: 0 <= i < |email| ==> !IsWhiteSpace(email[i])
    ensures exists at ::
      && 0 < at < |email| && email[at] == '@'
      && (forall i :: 0 <= i < |email| && email[i] == '@' ==> i == at)
      && (exists dot :: at + 1 < dot < |email| - 1 && email[dot] == '.')
  {
    IsValidEmailMatchesPattern(email);
    var at, dot :| 0 < at && at + 1 < dot && dot + 1 < |email| && email[at] == '@' && email[dot] == '.'
      && AllPlain(email[..at]) && AllPlain(email[at + 1..dot]) && AllPlain(email[dot + 1..]);
    forall i | 0 <= i < |email| && i != at ensures PlainChar(email[i]) {
      if i < at { assert email[i] == email[..at][i]; }
      else if i < dot { assert email[i] == email[at + 1..dot][i - at - 1]; }
      else if i > dot { assert email[i] == email[dot + 1..][i - dot - 1]; }
    }
  }

  // ---------------------------------------------------------------------------
  // Field validation

  /** An `<input>` as the validator sees it. */
  datatype Input = Input(value: string, required: bool, inputType: string, name: string)

  /** The checks of `validateField`, in the order they are tried. */
  datatype FieldRule = RequiredRule | EmailRule | PasswordLengthRule | UsernameLengthRule

  const FieldRules: seq<FieldRule> := [RequiredRule, EmailRule, PasswordLengthRule, UsernameLengthRule]

  /**
   * Whether `rule` rejects an input whose trimmed value is `v`. Every rule after
   * the first one only looks at a non-empty value.
   */
  predicate Violates(input: Input, v: string, rule: FieldRule) {
    match rule
    case RequiredRule => input.required && v == ""
    case EmailRule => input.inputType == "email" && v != "" && !IsValidEmail(v)
    case PasswordLengthRule => input.name == "password" && v != "" && Utf16Length(v) < 8
    case UsernameLengthRule => input.name == "username" && v != "" && Utf16Length(v) < 3
  }

  function RuleMessage(rule: FieldRule): (m: string)
    ensures m != ""
  {
    match rule
    case RequiredRule => "This field is required"
    case EmailRule => "Please enter a valid email address"
    case PasswordLengthRule => "Password must be at least 8 characters long"
    case UsernameLengthRule => "Username must be at least 3 characters long"
  }

  /**
   * The position of the first rule of `rules` that rejects the input, or
   * |rules| when none does.
   */
  function FirstViolation(rules: seq<FieldRule>, input: Input, v: string): (k: nat)
    ensures k <= |rules|
    ensures forall j :: 0 <= j < k ==> !Violates(input, v, rules[j])
    ensures k < |rules| ==> Violates(input, v, rules[k])
  {
    if rules == [] then 0
    else if Violates(input, v, rules[0]) then 0
    else 1 + FirstViolation(rules[1..], input, v)
  }

  /** The verdict on a field: the first rule its trimmed value breaks. */
  function FieldVerdict(input: Input): Option<FieldRule> {
    var k := FirstViolation(FieldRules, input, Trim(input.value));
    if k < |FieldRules| then Some(FieldRules[k]) else None
  }

  predicate FieldValid(input: Input) {
    FieldVerdict(input).None?
  }

  /** The error text shown under a field ("" when none). */
  function FieldMessage(input: Input): string {
    match FieldVerdict(input)
    case None => ""
    case Some(rule) => RuleMessage(rule)
  }

  /** The first failing position, written out for the four rules in order. */
  lemma FirstViolationChain(input: Input, v: string)
    ensures FirstViolation(FieldRules, input, v)
      == if Violates(input, v, RequiredRule) then 0
         else if Violates(input, v, EmailRule) then 1
         else if Violates(input, v, PasswordLengthRule) then 2
         else if Violates(input, v, UsernameLengthRule) then 3
         else 4
  {
    var r3: seq<FieldRule> := [UsernameLengthRule];
    var r2: seq<FieldRule> := [PasswordLengthRule] + r3;
    var r1: seq<FieldRule> := [EmailRule] + r2;
    var r0: seq<FieldRule> := [RequiredRule] + r1;
    assert r0 == FieldRules;
    assert r3[1..] == [] && r2[1..] == r3 && r1[1..] == r2 && r0[1..] == r1;
    var k3 := FirstViolation(r3, input, v);
    var k2 := FirstViolation(r2, input, v);
    var k1 := FirstViolation(r1, input, v);
    assert k3 == if Violates(input, v, UsernameLengthRule) then 0 else 1;
    assert k2 == if Violates(input, v, PasswordLengthRule) then 0 else 1 + k3;
    assert k1 == if Violates(input, v, EmailRule) then 0 else 1 + k2;
  }

  /** The verdict written out as the chain of rules, tried in order. */
  lemma FieldVerdictUnfolded(input: Input)
    ensures var v := Trim(input.value);
      FieldVerdict(input)
      == if Violates(input, v, RequiredRule) then Some(RequiredRule)
         else if Violates(input, v, EmailRule) then Some(EmailRule)
         else if Violates(input, v, PasswordLengthRule) then Some(PasswordLengthRule)
         else if Violates(input, v, UsernameLengthRule) then Some(UsernameLengthRule)
         else None
  {
    FirstViolationChain(input, Trim(input.value));
  }

  /**
   * `validateField`: an if/else-if chain that sets `isValid` and `message` from
   * the first check that fails.
   */
  method ValidateField(input: Input) returns (isValid: bool, message: string)
    ensures isValid <==> FieldValid(input)
    ensures message == FieldMessage(input)
    ensures message == "" <==> isValid
  {
    var value := Trim(input.value);
    isValid := true;
    message := "";
    if input.required && value == "" {
      isValid := false;
      message := "This field is required";
    } else if input.inputType == "email" && value != "" && !IsValidEmail(value) {
      isValid := false;
      message := "Please enter a valid email address";
    } else if input.name == "password" && value != "" && Utf16Length(value) < 8 {
      isValid := false;
      message := "Password must be at least 8 characters long";
    } else if input.name == "username" && value != "" && Utf16Length(value) < 3 {
      isValid := false;
      message := "Username must be at least 3 characters long";
    }
    FieldVerdictUnfolded(input);
  }

  /** The position of a check in `validateField`'s chain. */
  function Order(rule: FieldRule): (n: nat)
    ensures n < |FieldRules| && FieldRules[n] == rule
  {
    match rule
    case RequiredRule => 0
    case EmailRule => 1
    case PasswordLengthRule => 2
    case UsernameLengthRule => 3
  }

  /**
   * The verdict names the first failing check: the rule it reports is broken and
   * every check before it in the chain passes. No verdict means every check passes.
   */
  lemma FieldVerdictIsFirstFailure(input: Input)
    ensures FieldValid(input) <==> forall rule :: !Violates(input, Trim(input.value), rule)
    ensures forall rule :: FieldVerdict(input) == Some(rule) ==>
      && Violates(input, Trim(input.value), rule)
      && forall earlier :: Order(earlier) < Order(rule) ==> !Violates(input, Trim(input.value), earlier)
  {
    FieldVerdictUnfolded(input);
  }

  /** A field whose trimmed value breaks no rule passes. */
  lemma ValidWhenNoRuleBroken(input: Input, v: string)
    requires Trim(input.value) == v
    requires forall rule :: !Violates(input, v, rule)
    ensures FieldValid(input)
  {
    FirstViolationChain(input, v);
  }

  /** An optional field left blank (or all whitespace) always passes. */
  lemma BlankOptionalFieldValid(input: Input)
    requires !input.required && AllWhiteSpace(input.value)
    ensures FieldValid(input)
  {
    TrimAllWhiteSpace(input.value);
    FieldVerdictUnfolded(input);
  }

  /** The required inputs of a form, in document order. */
  function RequiredInputs(form: seq<Input>): (r: seq<Input>)
    ensures forall x :: x in r <==> x in form && x.required
  {
    if form == [] then []
    else (if form[0].required then [form[0]] else []) + RequiredInputs(form[1..])
  }

  /** Selection keeps document order: the required inputs of two parts, one after the other. */
  lemma {:induction false} RequiredInputsAppend(a: seq<Input>, b: seq<Input>)
    ensures RequiredInputs(a + b) == RequiredInputs(a) + RequiredInputs(b)
  {
    if a == [] {
      assert a + b == b;
    } else {
      assert (a + b)[1..] == a[1..] + b;
      RequiredInputsAppend(a[1..], b);
    }
  }

  /** The message each input of `inputs` gets, in order. */
  function FieldMessages(inputs: seq<Input>): (r: seq<string>)
    ensures |r| == |inputs|
  {
    if inputs == [] then [] else FieldMessages(inputs[..|inputs| - 1]) + [FieldMessage(inputs[|inputs| - 1])]
  }

  /** Whether every input of `inputs` passes. */
  predicate AllFieldsValid(inputs: seq<Input>) {
    inputs == [] || (AllFieldsValid(inputs[..|inputs| - 1]) && FieldValid(inputs[|inputs| - 1]))
  }

  lemma {:induction false} AllFieldsValidMeans(inputs: seq<Input>)
    ensures AllFieldsValid(inputs) <==> forall x :: x in inputs ==> FieldValid(x)
  {
    if inputs != [] {
      var init, last := inputs[..|inputs| - 1], inputs[|inputs| - 1];
      AllFieldsValidMeans(init);
      assert inputs == init + [last];
      assert forall x :: x in inputs <==> x in init || x == last;
    }
  }

  lemma {:induction false} FieldMessagesAt(inputs: seq<Input>, i: nat)
    requires i < |inputs|
    ensures FieldMessages(inputs)[i] == FieldMessage(inputs[i])
  {
    if i < |inputs| - 1 {
      FieldMessagesAt(inputs[..|inputs| - 1], i);
    }
  }

  /**
   * `validateForm`: every required input is validated (each gets its message,
   * whether or not an earlier one failed), and the form passes only when all of
   * them do.
   */
  method ValidateForm(form: seq<Input>) returns (isValid: bool, messages: seq<string>)
    ensures messages == FieldMessages(RequiredInputs(form))
    ensures isValid <==> forall x :: x in form && x.required ==> FieldValid(x)
  {
    var inputs := RequiredInputs(form);
    isValid := true;
    messages := [];
    for i := 0 to |inputs|
      invariant messages == FieldMessages(inputs[..i])
      invariant isValid == AllFieldsValid(inputs[..i])
    {
      var ok, message := ValidateField(inputs[i]);
      ValidateStep(inputs, i, ok, message);
      if !ok {
        isValid := false;
      }
      messages := messages + [message];
    }
    assert inputs[..|inputs|] == inputs;
    AllFieldsValidMeans(inputs);
  }

  /** One more validated input extends both the messages and the verdict. */
  lemma ValidateStep(inputs: seq<Input>, i: nat, ok: bool, message: string)
    requires i < |inputs|
    requires ok == FieldValid(inputs[i]) && message == FieldMessage(inputs[i])
    ensures FieldMessages(inputs[..i + 1]) == FieldMessages(inputs[..i]) + [message]
    ensures AllFieldsValid(inputs[..i + 1]) == (AllFieldsValid(inputs[..i]) && ok)
  {
    assert inputs[..i + 1][..i] == inputs[..i];
  }

  /** Every required input gets its own message, in document order, whether or not an earlier one failed. */
  lemma FormMessagesPerInput(form: seq<Input>, i: nat)
    requires i < |RequiredInputs(form)|
    ensures |FieldMessages(RequiredInputs(form))| == |RequiredInputs(form)|
    ensures FieldMessages(RequiredInputs(form))[i] == FieldMessage(RequiredInputs(form)[i])
  {
    FieldMessagesAt(RequiredInputs(form), i);
  }

  // ---------------------------------------------------------------------------
  // Remember me

  const RememberKey := "rememberedUsername"

  /** The submit handler: store the username when the box is ticked, else forget it. */
  function SaveOnSubmit(storage: map<string, string>, checked: bool, username: string): (r: map<string, string>)
    ensures checked ==> RememberKey in r && r[RememberKey] == username
    ensures !checked ==> RememberKey !in r
    ensures forall k :: k != RememberKey ==> (k in r <==> k in storage)
    ensures forall k :: k != RememberKey && k in r ==> r[k] == storage[k]
  {
    if checked then storage[RememberKey := username] else storage - {RememberKey}
  }

  /** On load: a non-empty saved name fills the username field and ticks the box. */
  function LoadRemembered(storage: map<string, string>): (r: Option<string>)
    ensures r.Some? <==> RememberKey in storage && storage[RememberKey] != ""
    ensures r.Some? ==> r.value == storage[RememberKey]
  {
    if RememberKey in storage && storage[RememberKey] != "" then Some(storage[RememberKey]) else None
  }

  /** A submitted name comes back on the next load exactly when the box was ticked and the name was not empty. */
  lemma RememberRoundTrip(storage: map<string, string>, checked: bool, username: string)
    ensures LoadRemembered(SaveOnSubmit(storage, checked, username))
            == if checked && username != "" then Some(username) else None
  {
  }
}
