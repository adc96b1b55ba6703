/** The e-mail authentication signal extractor and the override rule of the
    check page: the whole pasted e-mail, headers and body alike, is searched,
    case-insensitively, for fixed SPF, DKIM, DMARC and TLS phrases, and three or more "Safe"
    protocols force the classifier's verdict to "not spam". */
module Protocols {
  import opened Text

  datatype Status = Safe | Unsafe | Unknown

  /** The record `{SPF, DKIM, DMARC, TLS}` built by the extractor; its key
      order is the order of the fields. */
  datatype ProtocolStatus = ProtocolStatus(spf: Status, dkim: Status, dmarc: Status, tls: Status)

  /** A case-insensitive regular expression made of literal alternatives at
      the top level, `/a|b|c/i`: it matches a text containing any of them. */
  datatype Pattern = Pattern(alternatives: seq<string>)

  /** `pattern.test(text)` for the `i` flag. ECMAScript's case-insensitive
      comparison maps both sides to upper case and never maps a non-ASCII
      character onto an ASCII one, so for these all-ASCII patterns it agrees
      with ASCII lower-casing of both sides; the alternatives below are
      written already lower-cased (see `RulesAreLowerCase`). */
  predicate Matches(text: string, pattern: Pattern)
  {
    AnyOccurs(Lower(text), pattern.alternatives)
  }

  /** Some alternative occurs in `s`, tried left to right. */
  predicate AnyOccurs(s: string, alternatives: seq<string>)
  {
    alternatives != [] && (Contains(s, alternatives[0]) || AnyOccurs(s, alternatives[1..]))
  }

  /** Alternation is a disjunction over the alternatives. */
  lemma {:induction false} AnyOccursIff(s: string, alternatives: seq<string>)
    ensures AnyOccurs(s, alternatives) <==> exists k :: 0 <= k < |alternatives| && Contains(s, alternatives[k])
  {
    if alternatives != [] {
      AnyOccursIff(s, alternatives[1..]);
      if AnyOccurs(s, alternatives[1..]) {
        var k :| 0 <= k < |alternatives[1..]| && Contains(s, alternatives[1..][k]);
        assert Contains(s, alternatives[k + 1]);
      }
      forall k | 1 <= k < |alternatives| && Contains(s, alternatives[k])
        ensures AnyOccurs(s, alternatives[1..])
      {
        assert alternatives[1..][k - 1] == alternatives[k];
      }
    }
  }

  /** One protocol's rule: the pass pattern is tried first, then the fail pattern. */
  datatype Rule = Rule(pass: Pattern, fail: Pattern)

  // The patterns exactly as the check page writes them, lower-cased.
  // Alternation binds loosest, so only the first alternative carries the
  // "NAME: " prefix, except in the TLS pass rule whose alternatives are grouped.

  /** `/SPF: pass/i`, then `/SPF: fail|softfail|neutral/i`. */
  const SpfRule := Rule(Pattern(["spf: pass"]), Pattern(["spf: fail", "softfail", "neutral"]))
  /** `/DKIM: pass/i`, then `/DKIM: fail|none/i`. */
  const DkimRule := Rule(Pattern(["dkim: pass"]), Pattern(["dkim: fail", "none"]))
  /** `/DMARC: reject|quarantine/i`, then `/DMARC: none|fail/i`. */
  const DmarcRule := Rule(Pattern(["dmarc: reject", "quarantine"]), Pattern(["dmarc: none", "fail"]))
  /** `/TLS: (required|enforced)/i`, then `/TLS: none|optional/i`. */
  const TlsRule := Rule(Pattern(["tls: required", "tls: enforced"]), Pattern(["tls: none", "optional"]))

  /** The status one rule gives: first matching pattern wins, Unknown if none does. */
  function StatusOf(text: string, rule: Rule): (st: Status)
    ensures st == Safe <==> Matches(text, rule.pass)
    ensures st == Unsafe <==> !Matches(text, rule.pass) && Matches(text, rule.fail)
    ensures st == Unknown <==> !Matches(text, rule.pass) && !Matches(text, rule.fail)
  {
    if Matches(text, rule.pass) then Safe
    else if Matches(text, rule.fail) then Unsafe
    else Unknown
  }

  /** The record the extractor returns for `text`. */
  function ProtocolsOf(text: string): (p: ProtocolStatus)
  {
    ProtocolStatus(StatusOf(text, SpfRule), StatusOf(text, DkimRule),
                   StatusOf(text, DmarcRule), StatusOf(text, TlsRule))
  }

  /** `analyzeProtocols`: every entry starts as Unknown and is overwritten at
      most once, protocol by protocol, by the first of its two rules that matches. */
  method AnalyzeProtocols(text: string) returns (protocolStatus: ProtocolStatus)
    ensures protocolStatus == ProtocolsOf(text)
  {
    protocolStatus := ProtocolStatus(Unknown, Unknown, Unknown, Unknown);

    if Matches(text, SpfRule.pass) {
      protocolStatus := protocolStatus.(spf := Safe);
    } else if Matches(text, SpfRule.fail) {
      protocolStatus := protocolStatus.(spf := Unsafe);
    }

    if Matches(text, DkimRule.pass) {
      protocolStatus := protocolStatus.(dkim := Safe);
    } else if Matches(text, DkimRule.fail) {
      protocolStatus := protocolStatus.(dkim := Unsafe);
    }

    if Matches(text, DmarcRule.pass) {
      protocolStatus := protocolStatus.(dmarc := Safe);
    } else if Matches(text, DmarcRule.fail) {
      protocolStatus := protocolStatus.(dmarc := Unsafe);
    }

    if Matches(text, TlsRule.pass) {
      protocolStatus := protocolStatus.(tls := Safe);
    } else if Matches(text, TlsRule.fail) {
      protocolStatus := protocolStatus.(tls := Unsafe);
    }
  }

  /** `Object.values(protocols)`, in key order SPF, DKIM, DMARC, TLS. */
  function Values(p: ProtocolStatus): (s: seq<Status>)
  {
    [p.spf, p.dkim, p.dmarc, p.tls]
  }

  /** How many entries of `s` are Safe (`filter(...).length`): the
      multiplicity of Safe in the sequence. */
  function CountSafe(s: seq<Status>): (n: nat)
    ensures n == multiset(s)[Safe]
    ensures n <= |s|
  {
    if s == [] then 0
    else
      assert s == [s[0]] + s[1..];
      (if s[0] == Safe then 1 else 0) + CountSafe(s[1..])
  }

  /** The number of Safe protocols in the record. */
  function SafeCount(p: ProtocolStatus): (n: nat)
    ensures n == multiset(Values(p))[Safe]
    ensures n <= 4
  {
    CountSafe(Values(p))
  }

  /** The literal threshold of the override rule. */
  const SafeThreshold: nat := 3

  /** `overrideSpamDetection`: forced to 0 (not spam) when at least three
      protocols are Safe, otherwise the classifier's prediction unchanged. */
  function OverrideSpamDetection(originalPrediction: int, protocols: ProtocolStatus): (r: int)
    ensures SafeCount(protocols) >= 3 ==> r == 0
    ensures SafeCount(protocols) < 3 ==> r == originalPrediction
  {
    if SafeCount(protocols) >= SafeThreshold then 0 else originalPrediction
  }

  // ---------------------------------------------------------------------
  // Properties of the extractor

  /** A text that matches no pattern of a rule leaves that protocol Unknown;
      a text with no trigger of any rule gives the all-Unknown record. */
  lemma NoTriggerAllUnknown(text: string)
    requires !Matches(text, SpfRule.pass) && !Matches(text, SpfRule.fail)
    requires !Matches(text, DkimRule.pass) && !Matches(text, DkimRule.fail)
    requires !Matches(text, DmarcRule.pass) && !Matches(text, DmarcRule.fail)
    requires !Matches(text, TlsRule.pass) && !Matches(text, TlsRule.fail)
    ensures ProtocolsOf(text) == ProtocolStatus(Unknown, Unknown, Unknown, Unknown)
    ensures SafeCount(ProtocolsOf(text)) == 0
  {
  }

  // The rules' patterns written out as the substrings they look for in the
  // lower-cased text, one lemma per protocol.

  lemma AnyOfOne(s: string, a: string)
    ensures AnyOccurs(s, [a]) <==> Contains(s, a)
  {
    assert [a][1..] == [];
  }

  lemma AnyOfTwo(s: string, a: string, b: string)
    ensures AnyOccurs(s, [a, b]) <==> Contains(s, a) || Contains(s, b)
  {
    assert [a, b][1..] == [b];
    AnyOfOne(s, b);
  }

  lemma AnyOfThree(s: string, a: string, b: string, c: string)
    ensures AnyOccurs(s, [a, b, c]) <==> Contains(s, a) || Contains(s, b) || Contains(s, c)
  {
    assert [a, b, c][1..] == [b, c];
    AnyOfTwo(s, b, c);
  }

  lemma SpfSpelledOut(text: string)
    ensures Matches(text, SpfRule.pass) <==> Contains(Lower(text), "spf: pass")
    ensures Matches(text, SpfRule.fail) <==>
      Contains(Lower(text), "spf: fail") || Contains(Lower(text), "softfail") || Contains(Lower(text), "neutral")
  {
    AnyOfOne(Lower(text), "spf: pass");
    AnyOfThree(Lower(text), "spf: fail", "softfail", "neutral");
  }

  lemma DkimSpelledOut(text: string)
    ensures Matches(text, DkimRule.pass) <==> Contains(Lower(text), "dkim: pass")
    ensures Matches(text, DkimRule.fail) <==>
      Contains(Lower(text), "dkim: fail") || Contains(Lower(text), "none")
  {
    AnyOfOne(Lower(text), "dkim: pass");
    AnyOfTwo(Lower(text), "dkim: fail", "none");
  }

  lemma DmarcSpelledOut(text: string)
    ensures Matches(text, DmarcRule.pass) <==>
      Contains(Lower(text), "dmarc: reject") || Contains(Lower(text), "quarantine")
    ensures Matches(text, DmarcRule.fail) <==>
      Contains(Lower(text), "dmarc: none") || Contains(Lower(text), "fail")
  {
    AnyOfTwo(Lower(text), "dmarc: reject", "quarantine");
    AnyOfTwo(Lower(text), "dmarc: none", "fail");
  }

  lemma TlsSpelledOut(text: string)
    ensures Matches(text, TlsRule.pass) <==>
      Contains(Lower(text), "tls: required") || Contains(Lower(text), "tls: enforced")
    ensures Matches(text, TlsRule.fail) <==>
      Contains(Lower(text), "tls: none") || Contains(Lower(text), "optional")
  {
    AnyOfTwo(Lower(text), "tls: required", "tls: enforced");
    AnyOfTwo(Lower(text), "tls: none", "optional");
  }

  /** All four rules spelled out. */
  lemma PatternsSpelledOut(text: string)
    ensures Matches(text, SpfRule.pass) <==> Contains(Lower(text), "spf: pass")
    ensures Matches(text, SpfRule.fail) <==>
      Contains(Lower(text), "spf: fail") || Contains(Lower(text), "softfail") || Contains(Lower(text), "neutral")
    ensures Matches(text, DkimRule.pass) <==> Contains(Lower(text), "dkim: pass")
    ensures Matches(text, DkimRule.fail) <==>
      Contains(Lower(text), "dkim: fail") || Contains(Lower(text), "none")
    ensures Matches(text, DmarcRule.pass) <==>
      Contains(Lower(text), "dmarc: reject") || Contains(Lower(text), "quarantine")
    ensures Matches(text, DmarcRule.fail) <==>
      Contains(Lower(text), "dmarc: none") || Contains(Lower(text), "fail")
    ensures Matches(text, TlsRule.pass) <==>
      Contains(Lower(text), "tls: required") || Contains(Lower(text), "tls: enforced")
    ensures Matches(text, TlsRule.fail) <==>
      Contains(Lower(text), "tls: none") || Contains(Lower(text), "optional")
  {
    SpfSpelledOut(text);
    DkimSpelledOut(text);
    DmarcSpelledOut(text);
    TlsSpelledOut(text);
  }

  /** No alternative of any rule has an upper-case letter, so lower-casing
      it, as the `i` flag does, leaves it unchanged. */
  lemma RulesAreLowerCase()
    ensures forall r :: r in [SpfRule, DkimRule, DmarcRule, TlsRule] ==>
      (forall a :: a in r.pass.alternatives + r.fail.alternatives ==> Lower(a) == a)
  {
    forall r, a | r in [SpfRule, DkimRule, DmarcRule, TlsRule] && a in r.pass.alternatives + r.fail.alternatives
      ensures Lower(a) == a
    {
      NoUpperLower(a);
    }
  }

  /** The pass rule is tried first: once `spf: pass` (in any case) occurs, SPF
      is Safe whatever fail substrings the text also holds; likewise for the
      other pass rules. */
  lemma PassRuleWins(text: string)
    ensures Contains(Lower(text), "spf: pass") ==> ProtocolsOf(text).spf == Safe
    ensures Contains(Lower(text), "dkim: pass") ==> ProtocolsOf(text).dkim == Safe
    ensures Contains(Lower(text), "dmarc: reject") || Contains(Lower(text), "quarantine")
      ==> ProtocolsOf(text).dmarc == Safe
    ensures Contains(Lower(text), "tls: required") || Contains(Lower(text), "tls: enforced")
      ==> ProtocolsOf(text).tls == Safe
  {
    PatternsSpelledOut(text);
  }

  /** Alternation binds loosest, so these bare words make a protocol Unsafe
      anywhere in the text, with no "NAME: " before them, unless its pass rule
      matched. */
  lemma BareWordsTriggerUnsafe(text: string)
    ensures !Contains(Lower(text), "spf: pass") &&
            (Contains(Lower(text), "softfail") || Contains(Lower(text), "neutral"))
      ==> ProtocolsOf(text).spf == Unsafe
    ensures !Contains(Lower(text), "dkim: pass") && Contains(Lower(text), "none")
      ==> ProtocolsOf(text).dkim == Unsafe
    ensures !Contains(Lower(text), "dmarc: reject") && !Contains(Lower(text), "quarantine") &&
            Contains(Lower(text), "fail")
      ==> ProtocolsOf(text).dmarc == Unsafe
    ensures !Contains(Lower(text), "tls: required") && !Contains(Lower(text), "tls: enforced") &&
            Contains(Lower(text), "optional")
      ==> ProtocolsOf(text).tls == Unsafe
  {
    PatternsSpelledOut(text);
  }

  /** The DMARC pass rule accepts the bare word `quarantine` anywhere, while
      the grouped TLS pass rule needs the `tls: ` prefix on both of its words. */
  lemma QuarantineAnywhereTlsNeedsPrefix(text: string)
    ensures Contains(Lower(text), "quarantine") ==> ProtocolsOf(text).dmarc == Safe
    ensures ProtocolsOf(text).tls == Safe <==>
      Contains(Lower(text), "tls: required") || Contains(Lower(text), "tls: enforced")
  {
    PatternsSpelledOut(text);
  }

  /** Every Safe or Unsafe entry is backed by a rule that matched: absence of
      evidence never produces a verdict. */
  lemma VerdictNeedsEvidence(text: string)
    ensures ProtocolsOf(text).spf != Unknown ==> Matches(text, SpfRule.pass) || Matches(text, SpfRule.fail)
    ensures ProtocolsOf(text).dkim != Unknown ==> Matches(text, DkimRule.pass) || Matches(text, DkimRule.fail)
    ensures ProtocolsOf(text).dmarc != Unknown ==> Matches(text, DmarcRule.pass) || Matches(text, DmarcRule.fail)
    ensures ProtocolsOf(text).tls != Unknown ==> Matches(text, TlsRule.pass) || Matches(text, TlsRule.fail)
  {
  }

  /** A report line `SPF: fail` alone, in any case, gives SPF and DMARC both
      Unsafe: the DMARC fail pattern's bare `fail` alternative fires on it. */
  lemma SpfFailAlsoFailsDmarc(text: string)
    requires Lower(text) == "spf: fail"
    ensures ProtocolsOf(text).spf == Unsafe
    ensures ProtocolsOf(text).dmarc == Unsafe
    ensures ProtocolsOf(text).dkim == Unknown
    ensures ProtocolsOf(text).tls == Unknown
  {
    PatternsSpelledOut(text);
    SpfFailTriggers(Lower(text));
  }

  /** Which trigger substrings the text `spf: fail` holds. */
  lemma SpfFailTriggers(low: string)
    requires low == "spf: fail"
    ensures Contains(low, "spf: fail") && Contains(low, "fail")
    ensures !Contains(low, "spf: pass")
    ensures !Contains(low, "dkim: pass") && !Contains(low, "dkim: fail") && !Contains(low, "none")
    ensures !Contains(low, "dmarc: reject") && !Contains(low, "quarantine")
    ensures !Contains(low, "tls: required") && !Contains(low, "tls: enforced")
    ensures !Contains(low, "tls: none") && !Contains(low, "optional")
  {
    ContainsSelf(low);
    assert low[5] != "spf: pass"[5];
    SameLengthContains(low, "spf: pass");
    AbsentChar(low, "dkim: pass", 'd');
    AbsentChar(low, "dkim: fail", 'd');
    AbsentChar(low, "none", 'n');
    AbsentChar(low, "dmarc: reject", 'd');
    AbsentChar(low, "quarantine", 'q');
    AbsentChar(low, "tls: required", 't');
    AbsentChar(low, "tls: enforced", 't');
    AbsentChar(low, "tls: none", 't');
    AbsentChar(low, "optional", 'o');
    assert low == "spf: " + "fail" + "";
    ContainsSelf("fail");
    ContainsInside("spf: ", "fail", "", "fail");
  }

  // ---------------------------------------------------------------------
  // Properties of the override rule

  /** The override returns 0 or the prediction itself, nothing else. */
  lemma OverrideIsZeroOrOriginal(originalPrediction: int, protocols: ProtocolStatus)
    ensures OverrideSpamDetection(originalPrediction, protocols) in {0, originalPrediction}
  {
  }

  /** Applying the override to its own output changes nothing, and it never
      turns a 0 into anything else. */
  lemma OverrideIdempotent(originalPrediction: int, protocols: ProtocolStatus)
    ensures var once := OverrideSpamDetection(originalPrediction, protocols);
            OverrideSpamDetection(once, protocols) == once
    ensures OverrideSpamDetection(0, protocols) == 0
  {
  }

  /** The count of Safe entries, spelled out per protocol. */
  lemma SafeCountSpelledOut(p: ProtocolStatus)
    ensures SafeCount(p) ==
      (if p.spf == Safe then 1 else 0) + (if p.dkim == Safe then 1 else 0) +
      (if p.dmarc == Safe then 1 else 0) + (if p.tls == Safe then 1 else 0)
  {
    var v := Values(p);
    assert v[1..][1..][1..][1..] == [];
    assert CountSafe(v[1..][1..][1..]) == (if p.tls == Safe then 1 else 0);
  }

  /** SPF, DKIM and DMARC passing overrule the classifier, whatever TLS says. */
  lemma ThreePassesForceNotSpam(text: string, originalPrediction: int)
    requires Contains(Lower(text), "spf: pass")
    requires Contains(Lower(text), "dkim: pass")
    requires Contains(Lower(text), "dmarc: reject")
    ensures SafeCount(ProtocolsOf(text)) >= 3
    ensures OverrideSpamDetection(originalPrediction, ProtocolsOf(text)) == 0
  {
  }

  /** A text with no pass trigger at all keeps the classifier's prediction. */
  lemma NoPassKeepsPrediction(text: string, originalPrediction: int)
    requires !Matches(text, SpfRule.pass) && !Matches(text, DkimRule.pass)
    requires !Matches(text, DmarcRule.pass) && !Matches(text, TlsRule.pass)
    ensures SafeCount(ProtocolsOf(text)) == 0
    ensures OverrideSpamDetection(originalPrediction, ProtocolsOf(text)) == originalPrediction
  {
  }

  /** The header block `SPF: pass / DKIM: pass / DMARC: reject / TLS: none`,
      in any case, turns a spam prediction into "not spam". */
  lemma ExampleThreeSafeHeaders(text: string)
    requires Lower(text) == "spf: pass\ndkim: pass\ndmarc: reject\ntls: none"
    ensures OverrideSpamDetection(1, ProtocolsOf(text)) == 0
  {
    var low := Lower(text);
    ExampleHasSpfPass(low);
    ExampleHasDkimPass(low);
    ExampleHasDmarcReject(low);
    ThreePassesForceNotSpam(text, 1);
  }

  lemma ExampleHasSpfPass(low: string)
    requires low == "spf: pass\ndkim: pass\ndmarc: reject\ntls: none"
    ensures Contains(low, "spf: pass")
  {
    ContainsPrefix("spf: pass", low[9..], low);
  }

  lemma ExampleHasDkimPass(low: string)
    requires low == "spf: pass\ndkim: pass\ndmarc: reject\ntls: none"
    ensures Contains(low, "dkim: pass")
  {
    assert low == "spf: pass\n" + "dkim: pass" + "\ndmarc: reject\ntls: none";
    OccursIn("spf: pass\n", "dkim: pass", "\ndmarc: reject\ntls: none", low);
  }

  lemma ExampleHasDmarcReject(low: string)
    requires low == "spf: pass\ndkim: pass\ndmarc: reject\ntls: none"
    ensures Contains(low, "dmarc: reject")
  {
    assert low == "spf: pass\ndkim: pass\n" + "dmarc: reject" + "\ntls: none";
    OccursIn("spf: pass\ndkim: pass\n", "dmarc: reject", "\ntls: none", low);
  }

  /** `p` occurs in any text that starts with it. */
  lemma ContainsPrefix(p: string, rest: string, s: string)
    requires s == p + rest
    ensures Contains(s, p)
  {
    assert s[..|p|] == p;
  }

  /** `p` occurs in any text built around it. */
  lemma OccursIn(a: string, p: string, b: string, s: string)
    requires s == a + p + b
    ensures Contains(s, p)
  {
    ContainsSelf(p);
    ContainsInside(a, p, b, p);
  }
}
