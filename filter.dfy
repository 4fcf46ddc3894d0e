/**
 * The domain matcher: which queries the relay admits. A question is admitted
 * when its name, lower-cased, ends with some configured suffix followed by
 * "." (also lower-cased). The test is a raw string suffix test; it is not
 * anchored at a label boundary. A query is admitted when every one of its
 * questions is, or when the suffix list is empty.
 */
module Filter {
  import opened GoStrings
  import opened Dns

  /** The test of one question name against one configured suffix. */
  predicate SuffixMatch(name: string, suffix: string) {
    HasSuffix(ToLower(name), ToLower(suffix + "."))
  }

  /** Some configured suffix accepts `name`. */
  predicate NameAdmitted(name: string, suffixes: seq<string>) {
    exists j :: 0 <= j < |suffixes| && SuffixMatch(name, suffixes[j])
  }

  /** The relay forwards a query with these questions. */
  predicate Admits(questions: seq<Question>, suffixes: seq<string>) {
    |suffixes| > 0 ==>
      forall i :: 0 <= i < |questions| ==> NameAdmitted(questions[i].name, suffixes)
  }

  /**
   * The admission loop of the query handler: for each question, scan the
   * suffixes until one matches; the first question that none matches ends
   * the handler without a response.
   */
  method CheckAdmission(questions: seq<Question>, suffixes: seq<string>) returns (admitted: bool)
    ensures admitted == Admits(questions, suffixes)
  {
    for i := 0 to |questions|
      invariant |suffixes| > 0 ==>
        forall k :: 0 <= k < i ==> NameAdmitted(questions[k].name, suffixes)
    {
      var x := questions[i];
      if |suffixes| > 0 {
        var onematch := false;
        var j := 0;
        while j < |suffixes|
          invariant 0 <= j <= |suffixes|
          invariant !onematch
          invariant forall k :: 0 <= k < j ==> !SuffixMatch(x.name, suffixes[k])
        {
          if HasSuffix(ToLower(x.name), ToLower(suffixes[j] + ".")) {
            onematch := true;
            break;
          }
          j := j + 1;
        }
        if !onematch {
          return false;
        }
      }
    }
    return true;
  }

  // ---------------------------------------------------------------------
  // Properties of the matcher

  /** Lower-casing `y + "."` is the same as lower-casing `y` and appending ".". */
  lemma SuffixMatchLowered(name: string, suffix: string)
    ensures SuffixMatch(name, suffix) <==> HasSuffix(ToLower(name), ToLower(suffix) + ".")
  {
    ToLowerConcat(suffix, ".");
    assert ToLower(".") == ".";
  }

  /**
   * Admission spelled out: some suffix, lower-cased and followed by ".",
   * ends the lower-cased name.
   */
  lemma NameAdmittedIff(name: string, suffixes: seq<string>)
    ensures NameAdmitted(name, suffixes) <==>
      exists j :: 0 <= j < |suffixes| && HasSuffix(ToLower(name), ToLower(suffixes[j]) + ".")
  {
    forall j | 0 <= j < |suffixes| {
      SuffixMatchLowered(name, suffixes[j]);
    }
  }

  /** One question that no suffix matches is enough to reject the whole query. */
  lemma UnmatchedQuestionRejects(questions: seq<Question>, suffixes: seq<string>, i: nat)
    requires |suffixes| > 0 && i < |questions|
    requires forall j :: 0 <= j < |suffixes| ==> !SuffixMatch(questions[i].name, suffixes[j])
    ensures !Admits(questions, suffixes)
  {
    assert !NameAdmitted(questions[i].name, suffixes);
  }

  /**
   * Case does not matter: names that agree up to case, checked against
   * suffix lists that agree up to case, get the same decision.
   */
  lemma {:induction false} AdmitsIgnoresCase(q1: seq<Question>, q2: seq<Question>, s1: seq<string>, s2: seq<string>)
    requires |q1| == |q2| && |s1| == |s2|
    requires forall i :: 0 <= i < |q1| ==> ToLower(q1[i].name) == ToLower(q2[i].name)
    requires forall j :: 0 <= j < |s1| ==> ToLower(s1[j]) == ToLower(s2[j])
    ensures Admits(q1, s1) == Admits(q2, s2)
  {
    forall i, j | 0 <= i < |q1| && 0 <= j < |s1|
      ensures SuffixMatch(q1[i].name, s1[j]) == SuffixMatch(q2[i].name, s2[j])
    {
      SuffixMatchLowered(q1[i].name, s1[j]);
      SuffixMatchLowered(q2[i].name, s2[j]);
    }
    assert forall i :: 0 <= i < |q1| ==>
      NameAdmitted(q1[i].name, s1) == NameAdmitted(q2[i].name, s2);
  }

  /** Writing a name or a suffix in capitals never changes the decision. */
  lemma UpperCaseNameAndSuffix(name: string, suffix: string)
    ensures SuffixMatch(ToUpper(name), suffix) == SuffixMatch(name, suffix)
    ensures SuffixMatch(name, ToUpper(suffix)) == SuffixMatch(name, suffix)
  {
    ToLowerOfUpper(name);
    ToLowerOfUpper(suffix);
    SuffixMatchLowered(name, suffix);
    SuffixMatchLowered(name, ToUpper(suffix));
  }

  /**
   * The order of the suffix list, and repetitions in it, do not matter: the
   * inner loop stops at the first match, and any match admits.
   */
  lemma AdmitsOrderIndependent(questions: seq<Question>, s1: seq<string>, s2: seq<string>)
    requires forall y :: y in s1 <==> y in s2
    ensures Admits(questions, s1) == Admits(questions, s2)
  {
    assert |s1| > 0 ==> s1[0] in s2;
    assert |s2| > 0 ==> s2[0] in s1;
    forall name ensures NameAdmitted(name, s1) == NameAdmitted(name, s2) {
      if NameAdmitted(name, s1) {
        var j :| 0 <= j < |s1| && SuffixMatch(name, s1[j]);
        assert s1[j] in s2;
        var k :| 0 <= k < |s2| && s2[k] == s1[j];
        assert SuffixMatch(name, s2[k]);
      }
      if NameAdmitted(name, s2) {
        var j :| 0 <= j < |s2| && SuffixMatch(name, s2[j]);
        assert s2[j] in s1;
        var k :| 0 <= k < |s1| && s1[k] == s2[j];
        assert SuffixMatch(name, s1[k]);
      }
    }
  }

  /**
   * The test is a raw suffix test, not anchored at a label boundary: a
   * suffix admits its own name with anything at all in front of it.
   */
  lemma AnyPrefixAdmitted(prefix: string, suffix: string)
    ensures NameAdmitted(prefix + suffix + ".", [suffix])
  {
    assert prefix + suffix + "." == prefix + (suffix + ".");
    ToLowerConcat(prefix, suffix + ".");
    var lower := ToLower(prefix + suffix + ".");
    assert lower[|ToLower(prefix)|..] == ToLower(suffix + ".");
    assert SuffixMatch(prefix + suffix + ".", [suffix][0]);
  }

  /** With suffix "example.com", the name "notexample.com." is admitted. */
  lemma RawSuffixAdmitsNotexample()
    ensures NameAdmitted("notexample.com.", ["example.com"])
  {
    assert "notexample.com." == "not" + "example.com" + ".";
    AnyPrefixAdmitted("not", "example.com");
  }

  /** With suffix "example.com", the name "example.com.evil." is rejected. */
  lemma RawSuffixRejectsEvil()
    ensures !NameAdmitted("example.com.evil.", ["example.com"])
  {
    var name, suffix := "example.com.evil.", "example.com";
    var tail := suffix + ".";
    ToLowerAt(name, 5);
    ToLowerAt(tail, 0);
    assert ToLower(name)[|ToLower(name)| - |ToLower(tail)|..][0] != ToLower(tail)[0];
  }

  /**
   * The suffix list of an empty filter is [""]: its one suffix is ".", which
   * admits exactly the names that end in ".".
   */
  lemma EmptySuffixAdmitsFqdn(name: string)
    ensures NameAdmitted(name, [""]) <==> |name| > 0 && name[|name| - 1] == '.'
  {
    assert "" + "." == ".";
    assert ToLower(".") == ".";
    var lower := ToLower(name);
    assert SuffixMatch(name, "") <==> HasSuffix(lower, ".");
    if |name| > 0 {
      ToLowerAt(name, |name| - 1);
      LowerCharDot(name[|name| - 1]);
      assert lower[|name| - 1..] == [lower[|name| - 1]];
    }
    assert NameAdmitted(name, [""]) <==> SuffixMatch(name, [""][0]);
  }

  /** A query without questions is admitted under every filter. */
  lemma NoQuestionsAdmitted(suffixes: seq<string>)
    ensures Admits([], suffixes)
  {
  }
}
