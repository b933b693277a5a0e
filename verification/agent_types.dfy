/**
  The agent kinds of the live agent server (`AgentType` in
  backend/ec2/live-gemini/src/live_gemini/enums/agent_types.py): four members
  with an upper-case name and a display value, the set of lowered names, and
  the name parser whose fall-through refers to a member that does not exist.
 */
module AgentTypes {
  import opened Wrappers
  import opened Text

  datatype AgentType = Comparison | Navigation | ProductInfo | Fallback

  /** The members in declaration order, which is also Python's iteration order. */
  const Members: seq<AgentType> := [Comparison, Navigation, ProductInfo, Fallback]

  /** The member's Python name. */
  function Name(a: AgentType): string {
    match a
    case Comparison => "COMPARISON"
    case Navigation => "NAVIGATION"
    case ProductInfo => "PRODUCT_INFO"
    case Fallback => "FALLBACK"
  }

  /** The member's value, the string the rest of the server passes around. */
  function Value(a: AgentType): string {
    match a
    case Comparison => "Comparison"
    case Navigation => "Navigation"
    case ProductInfo => "ProductInfo"
    case Fallback => "Fallback"
  }

  /** Lowering an ASCII literal character by character. */
  lemma LowerLiteral(s: string, t: string)
    requires |s| == |t|
    requires forall i :: 0 <= i < |s| ==>
               if 'A' <= s[i] <= 'Z' then t[i] as int == s[i] as int + 32 else t[i] == s[i] && s[i] as int < 128
    ensures PyLower(s) == t
  {
    forall i | 0 <= i < |s| ensures PyLower(s)[i] == t[i] {
      assert PyLower(s)[i] == PyLowerChar(s[i]);
    }
  }

  /** The member's name in lower case, written out. */
  function LoweredName(a: AgentType): string {
    match a
    case Comparison => "comparison"
    case Navigation => "navigation"
    case ProductInfo => "product_info"
    case Fallback => "fallback"
  }

  lemma LoweredNameCorrect(a: AgentType)
    ensures PyLower(Name(a)) == LoweredName(a)
  {
    match a
    case Comparison => LowerLiteral("COMPARISON", "comparison");
    case Navigation => LowerLiteral("NAVIGATION", "navigation");
    case ProductInfo => LowerLiteral("PRODUCT_INFO", "product_info");
    case Fallback => LowerLiteral("FALLBACK", "fallback");
  }

  /** `get_valid_values`: the lowered member names (not the values). */
  function ValidValues(): (r: set<string>)
    ensures r == {"comparison", "navigation", "product_info", "fallback"}
  {
    LoweredNameCorrect(Comparison);
    LoweredNameCorrect(Navigation);
    LoweredNameCorrect(ProductInfo);
    LoweredNameCorrect(Fallback);
    set a | a in Members :: PyLower(Name(a))
  }

  /** A string is a valid value exactly when some member's lowered name is that string. */
  lemma InValidValues(v: string)
    ensures v in ValidValues() <==> exists i :: 0 <= i < |Members| && PyLower(Name(Members[i])) == v
  {
    var vs := set a | a in Members :: PyLower(Name(a));
    assert ValidValues() == vs;
    if v in vs {
      var a :| a in Members && PyLower(Name(a)) == v;
      var i :| 0 <= i < |Members| && Members[i] == a;
    }
  }

  /** What Python raises when the loop finds nothing and `cls.CUSTOMER_SERVICE` is evaluated. */
  const NoMemberError := "AttributeError: CUSTOMER_SERVICE"

  /** The first of `candidates` whose lowered name is `v`. */
  function FindByName(v: string, candidates: seq<AgentType>): (r: Option<AgentType>)
    ensures r.Some? <==> exists i :: 0 <= i < |candidates| && PyLower(Name(candidates[i])) == v
    ensures r.Some? ==> r.value in candidates && PyLower(Name(r.value)) == v
  {
    if candidates == [] then None
    else if PyLower(Name(candidates[0])) == v then Some(candidates[0])
    else
      var rest := FindByName(v, candidates[1..]);
      assert forall i :: 1 <= i < |candidates| ==> candidates[i] == candidates[1..][i - 1];
      rest
  }

  /**
    `from_string(value)`: strip surrounding white space, lower-case, and
    return the member whose lowered name matches; with no match the code
    reaches a non-existent member, modelled as a failure.
   */
  function FromString(value: string): (r: Result<AgentType, string>)
    ensures r.Success? <==> PyLower(PyStrip(value)) in ValidValues()
    ensures r.Success? ==> PyLower(Name(r.value)) == PyLower(PyStrip(value))
    ensures r.Failure? ==> r.error == NoMemberError
  {
    var v := PyLower(PyStrip(value));
    InValidValues(v);
    match FindByName(v, Members)
    case Some(a) => Success(a)
    case None => Failure(NoMemberError)
  }

  /** Different members have different lowered names, so a lowered name determines its member. */
  lemma LoweredNamesDistinct(a: AgentType, b: AgentType)
    requires PyLower(Name(a)) == PyLower(Name(b))
    ensures a == b
  {
    LoweredNameCorrect(a);
    LoweredNameCorrect(b);
  }

  /** Parsing succeeds with exactly the member whose lowered name the stripped, lowered input is. */
  lemma FromStringMatches(value: string, a: AgentType)
    requires PyLower(PyStrip(value)) == PyLower(Name(a))
    ensures FromString(value) == Success(a)
  {
    LoweredNameCorrect(a);
    var r := FromString(value);
    assert r.Success?;
    LoweredNamesDistinct(r.value, a);
  }

  /** No valid value has eleven characters (the length of "productinfo"). */
  lemma NoValidValueOfLength11(s: string)
    requires |s| == 11
    ensures s !in ValidValues()
  {
    var vs := ValidValues();
    assert vs == {"comparison", "navigation", "product_info", "fallback"};
  }

  /** Parsing fails exactly when the stripped, lowered input is no lowered name. */
  lemma FromStringRejects(value: string)
    requires PyLower(PyStrip(value)) !in ValidValues()
    ensures FromString(value) == Failure(NoMemberError)
  {
  }

  /** A member's own name parses back to that member. */
  lemma FromStringName(a: AgentType)
    ensures FromString(Name(a)) == Success(a)
  {
    NameUnstripped(a);
    FromStringMatches(Name(a), a);
  }

  /** No member name starts or ends with white space, so stripping keeps it. */
  lemma NameUnstripped(a: AgentType)
    ensures PyStrip(Name(a)) == Name(a)
  {
    var n := Name(a);
    LoweredNameCorrect(a);
    assert PyLowerChar(n[0]) == LoweredName(a)[0];
    assert PyLowerChar(n[|n| - 1]) == LoweredName(a)[|n| - 1];
    StripUnpadded(n);
  }

  /** Stripping the start skips exactly a white-space prefix followed by a non-space. */
  lemma {:induction false} StripStartBlank(pre: string, s: string)
    requires forall i :: 0 <= i < |pre| ==> IsPySpace(pre[i])
    requires s != [] && !IsPySpace(s[0])
    ensures PyStripStart(pre + s) == s
    decreases |pre|
  {
    if pre == [] {
      assert pre + s == s;
    } else {
      var t := pre + s;
      assert t[0] == pre[0] && IsPySpace(t[0]);
      assert t[1..] == pre[1..] + s;
      StripStartBlank(pre[1..], s);
      assert PyStripStart(t) == PyStripStart(t[1..]);
    }
  }

  /** Stripping the end skips exactly a white-space suffix preceded by a non-space. */
  lemma {:induction false} StripEndBlank(s: string, post: string)
    requires forall i :: 0 <= i < |post| ==> IsPySpace(post[i])
    requires s != [] && !IsPySpace(s[|s| - 1])
    ensures PyStripEnd(s + post) == s
    decreases |post|
  {
    if post == [] {
      assert s + post == s;
    } else {
      var t := s + post;
      assert t[|t| - 1] == post[|post| - 1] && IsPySpace(t[|t| - 1]);
      assert t[..|t| - 1] == s + post[..|post| - 1];
      StripEndBlank(s, post[..|post| - 1]);
      assert PyStripEnd(t) == PyStripEnd(t[..|t| - 1]);
    }
  }

  /** Stripping leaves a string alone when it neither starts nor ends with white space. */
  lemma StripBetweenBlanks(pre: string, s: string, post: string)
    requires forall i :: 0 <= i < |pre| ==> IsPySpace(pre[i])
    requires forall i :: 0 <= i < |post| ==> IsPySpace(post[i])
    requires s != [] && !IsPySpace(s[0]) && !IsPySpace(s[|s| - 1])
    ensures PyStrip(pre + s + post) == s
  {
    assert pre + s + post == pre + (s + post);
    StripStartBlank(pre, s + post);
    StripEndBlank(s, post);
  }

  /**
    Case and surrounding white space do not matter: any spelling whose
    lowering is a member's lowered name, padded with white space, parses to
    that member.
   */
  lemma FromStringIgnoresCaseAndSpace(a: AgentType, pre: string, spelling: string, post: string)
    requires forall i :: 0 <= i < |pre| ==> IsPySpace(pre[i])
    requires forall i :: 0 <= i < |post| ==> IsPySpace(post[i])
    requires PyLower(spelling) == PyLower(Name(a))
    ensures FromString(pre + spelling + post) == Success(a)
  {
    LoweredNameCorrect(a);
    var lowered := LoweredName(a);
    assert 'a' <= lowered[0] <= 'z' && 'a' <= lowered[|lowered| - 1] <= 'z';
    assert spelling != [];
    assert !IsPySpace(spelling[0]) by { assert PyLowerChar(spelling[0]) == lowered[0]; }
    assert !IsPySpace(spelling[|spelling| - 1]) by {
      assert PyLowerChar(spelling[|spelling| - 1]) == lowered[|lowered| - 1];
    }
    StripBetweenBlanks(pre, spelling, post);
    FromStringMatches(pre + spelling + post, a);
  }

  /** Lowering each member's value: equal to its lowered name except for "ProductInfo". */
  lemma LoweredValue(a: AgentType)
    ensures PyLower(Value(a)) == if a == ProductInfo then "productinfo" else LoweredName(a)
  {
    match a
    case Comparison => LowerLiteral("Comparison", "comparison");
    case Navigation => LowerLiteral("Navigation", "navigation");
    case ProductInfo => LowerLiteral("ProductInfo", "productinfo");
    case Fallback => LowerLiteral("Fallback", "fallback");
  }

  /** "ProductInfo", the value of PRODUCT_INFO, is not a name in any spelling the parser accepts. */
  lemma ProductInfoValueRejected()
    ensures FromString(Value(ProductInfo)) == Failure(NoMemberError)
  {
    var v := Value(ProductInfo);
    StripBetweenBlanks("", v, "");
    assert "" + v + "" == v;
    LoweredValue(ProductInfo);
    var lowered := PyLower(PyStrip(v));
    assert |lowered| == 11;
    NoValidValueOfLength11(lowered);
    FromStringRejects(v);
  }

  /** The other three values lower to their member's lowered name and parse to it. */
  lemma OtherValueAccepted(a: AgentType)
    requires a != ProductInfo
    ensures FromString(Value(a)) == Success(a)
  {
    var v := Value(a);
    StripBetweenBlanks("", v, "");
    assert "" + v + "" == v;
    LoweredValue(a);
    LoweredNameCorrect(a);
    FromStringMatches(v, a);
  }

  /**
    Values are not names: only the values whose lowering happens to be a
    lowered name parse, so "ProductInfo" fails while the other three succeed.
   */
  lemma FromStringValue(a: AgentType)
    ensures FromString(Value(a)).Success? <==> a != ProductInfo
  {
    if a == ProductInfo {
      ProductInfoValueRejected();
    } else {
      OtherValueAccepted(a);
    }
  }
}
