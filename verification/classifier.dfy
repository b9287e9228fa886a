/** The expense category suggestion of `suggestCategory` in
    Revenue/backend/controllers/predictionController.js: a blank description
    is refused; otherwise the lower-cased description is matched against an
    ordered table of keyword rules, and the loop keeps a candidate only when
    its confidence is strictly greater than the best so far, starting from
    'Miscellaneous' at 50. Because the table's confidences strictly
    decrease, this is the first rule with a matching keyword. */
module Classifier {
  import opened Wrappers

  datatype Rule = Rule(keywords: seq<string>, category: string, confidence: int)

  datatype Suggestion = Suggestion(category: string, confidence: int)

  /** The fallback when no rule matches. */
  const Fallback: Suggestion := Suggestion("Miscellaneous", 50)

  /** The rule table, in the order the rules are tried. */
  function Rules(): (rs: seq<Rule>)
    ensures |rs| == 12
  {
    [ Rule(["uber", "ola", "cab", "taxi", "fuel", "petrol", "diesel", "metro", "train", "bus"], "Transport", 95),
      Rule(["hotel", "airbnb", "flight", "airlines", "travel", "trip", "booking", "reservation"], "Travel", 92),
      Rule(["food", "restaurant", "dinner", "lunch", "cafe", "pizza", "swiggy", "zomato", "delivery"], "Dining", 90),
      Rule(["grocery", "supermarket", "mart", "bigbasket", "grofers"], "Groceries", 88),
      Rule(["aws", "azure", "gcp", "server", "hosting", "domain", "cloud", "saas"], "Cloud & Hosting", 85),
      Rule(["internet", "wifi", "broadband", "mobile", "phone", "telecom"], "Utilities", 83),
      Rule(["laptop", "mouse", "keyboard", "monitor", "computer", "hardware"], "Equipment", 80),
      Rule(["doctor", "pharmacy", "hospital", "medicine", "healthcare"], "Health", 78),
      Rule(["rent", "lease", "office", "property", "real estate"], "Rent", 75),
      Rule(["marketing", "advertising", "google ads", "facebook ads", "social media"], "Marketing", 70),
      Rule(["software", "license", "subscription", "saas", "app"], "Software", 65),
      Rule(["training", "course", "education", "workshop", "seminar"], "Training", 60) ]
  }

  // ---------------------------------------------------------------------------
  // Text

  /** The characters `String.prototype.trim` removes: the ECMAScript white
      space and line terminator code points. */
  predicate IsSpace(c: char)
  {
    c == ' ' || c == '\t' || c == '\n' || c == '\U{000B}' || c == '\U{000C}' || c == '\r' ||
    c == '\U{00A0}' || c == '\U{1680}' || ('\U{2000}' <= c <= '\U{200A}') ||
    c == '\U{2028}' || c == '\U{2029}' || c == '\U{202F}' || c == '\U{205F}' ||
    c == '\U{3000}' || c == '\U{FEFF}'
  }

  /** `s` without its leading white space. */
  function TrimStart(s: string): (r: string)
    ensures |r| <= |s| && r == s[|s| - |r|..]
    ensures |r| > 0 ==> !IsSpace(r[0])
    ensures forall i :: 0 <= i < |s| - |r| ==> IsSpace(s[i])
  {
    if |s| > 0 && IsSpace(s[0]) then TrimStart(s[1..]) else s
  }

  /** `s` without its trailing white space. */
  function TrimEnd(s: string): (r: string)
    ensures |r| <= |s| && r == s[..|r|]
    ensures |r| > 0 ==> !IsSpace(r[|r| - 1])
    ensures forall i :: |r| <= i < |s| ==> IsSpace(s[i])
  {
    if |s| > 0 && IsSpace(s[|s| - 1]) then TrimEnd(s[..|s| - 1]) else s
  }

  /** The description is all white space. */
  predicate Blank(s: string)
  {
    forall i :: 0 <= i < |s| ==> IsSpace(s[i])
  }

  /** `String.prototype.trim`: white space removed from both ends. What is
      left starts and ends with a non-space character, and it is empty
      exactly when the description is blank, the test `!description.trim()`
      applies. */
  function Trim(s: string): (r: string)
    ensures |r| <= |s|
    ensures |r| > 0 ==> !IsSpace(r[0]) && !IsSpace(r[|r| - 1])
    ensures r == "" <==> Blank(s)
  {
    var t := TrimStart(s);
    assert |t| > 0 ==> !IsSpace(s[|s| - |t|]);
    TrimEnd(t)
  }

  /** Lower-casing of the ASCII letters. */
  function LowerChar(c: char): (r: char)
    ensures 'A' <= c <= 'Z' ==> r as int == c as int + 32
    ensures !('A' <= c <= 'Z') ==> r == c
  {
    if 'A' <= c <= 'Z' then (c as int + 32) as char else c
  }

  function Lower(s: string): (r: string)
    ensures |r| == |s|
    ensures forall i :: 0 <= i < |s| ==> r[i] == LowerChar(s[i])
  {
    if |s| == 0 then "" else Lower(s[..|s| - 1]) + [LowerChar(s[|s| - 1])]
  }

  /** `s.includes(w)`: `w` occurs in `s` as a contiguous substring. */
  predicate Contains(s: string, w: string)
  {
    exists i :: 0 <= i <= |s| - |w| && OccursAt(s, w, i)
  }

  /** `w` occurs in `s` starting at index `i`. */
  predicate OccursAt(s: string, w: string, i: int)
  {
    0 <= i <= |s| - |w| && s[i..i + |w|] == w
  }

  /** The number of keywords of a list that occur in `d`. */
  function MatchCount(keywords: seq<string>, d: string): (m: nat)
    ensures m <= |keywords|
    ensures m > 0 <==> exists k :: 0 <= k < |keywords| && Contains(d, keywords[k])
  {
    if |keywords| == 0 then 0
    else
      var n := |keywords| - 1;
      var rest := MatchCount(keywords[..n], d);
      assert forall k :: 0 <= k < n ==> keywords[..n][k] == keywords[k];
      rest + (if Contains(d, keywords[n]) then 1 else 0)
  }

  /** Some keyword of the rule occurs in `d`. */
  predicate Matches(r: Rule, d: string)
  {
    MatchCount(r.keywords, d) > 0
  }

  function Min(a: int, b: int): int
  {
    if a < b then a else b
  }

  /** The confidence a matching rule offers: its base confidence capped
      by `base + 5·matches`. */
  function Candidate(r: Rule, d: string): (c: int)
    requires Matches(r, d)
    ensures c == r.confidence
  {
    Min(r.confidence, r.confidence + MatchCount(r.keywords, d) * 5)
  }

  // ---------------------------------------------------------------------------
  // The loop and its reference

  /** The best match after trying the rules `rs` in order, as the loop
      keeps it: a candidate replaces the best only when strictly more
      confident. */
  function Scan(rs: seq<Rule>, d: string): (s: Suggestion)
    ensures s == Fallback ||
      exists k :: 0 <= k < |rs| && Matches(rs[k], d) && s == Suggestion(rs[k].category, rs[k].confidence)
  {
    if |rs| == 0 then Fallback
    else
      var best := Scan(rs[..|rs| - 1], d);
      var r := rs[|rs| - 1];
      if Matches(r, d) && Candidate(r, d) > best.confidence then Suggestion(r.category, Candidate(r, d))
      else best
  }

  /** The reference: the first rule with a matching keyword, or the fallback. */
  function FirstMatch(rs: seq<Rule>, d: string): (s: Suggestion)
    ensures s == Fallback || exists k :: 0 <= k < |rs| && s == Suggestion(rs[k].category, rs[k].confidence)
  {
    if |rs| == 0 then Fallback
    else if Matches(rs[0], d) then Suggestion(rs[0].category, rs[0].confidence)
    else
      var s := FirstMatch(rs[1..], d);
      assert forall k :: 0 <= k < |rs| - 1 ==> rs[1..][k] == rs[k + 1];
      s
  }

  /** Some rule of `rs` matches `d`. */
  predicate AnyMatch(rs: seq<Rule>, d: string)
  {
    exists k :: 0 <= k < |rs| && Matches(rs[k], d)
  }

  /** Confidences strictly decrease along the table and stay above the
      fallback's 50. */
  predicate Decreasing(rs: seq<Rule>)
  {
    (forall i, j :: 0 <= i < j < |rs| ==> rs[i].confidence > rs[j].confidence) &&
    (forall i :: 0 <= i < |rs| ==> rs[i].confidence > Fallback.confidence)
  }

  lemma RulesDecreasing()
    ensures Decreasing(Rules())
  {
    var rs := Rules();
    assert forall i :: 0 <= i < |rs| - 1 ==> rs[i].confidence > rs[i + 1].confidence;
    ChainDecreasing(rs);
  }

  /** Confidences that fall from each rule to the next, ending above the
      fallback's, fall along the whole table. */
  lemma {:induction false} ChainDecreasing(rs: seq<Rule>)
    requires forall i :: 0 <= i < |rs| - 1 ==> rs[i].confidence > rs[i + 1].confidence
    requires |rs| > 0 ==> rs[|rs| - 1].confidence > Fallback.confidence
    ensures Decreasing(rs)
  {
    if |rs| > 1 {
      var t := rs[1..];
      assert forall i :: 0 <= i < |t| ==> t[i] == rs[i + 1];
      assert t[|t| - 1] == rs[|rs| - 1];
      ChainDecreasing(t);
      forall i, j | 0 <= i < j < |rs|
        ensures rs[i].confidence > rs[j].confidence
      {
        if i > 0 {
          assert t[i - 1] == rs[i] && t[j - 1] == rs[j];
        } else if j > 1 {
          assert t[0] == rs[1] && t[j - 1] == rs[j];
        }
      }
      forall i | 0 <= i < |rs|
        ensures rs[i].confidence > Fallback.confidence
      {
        if i > 0 {
          assert t[i - 1] == rs[i];
        } else {
          assert t[0] == rs[1];
        }
      }
    }
  }

  /** Appending a rule changes the first match only when nothing matched
      before. */
  lemma {:induction false} FirstMatchAppend(p: seq<Rule>, x: Rule, d: string)
    ensures AnyMatch(p, d) ==> FirstMatch(p + [x], d) == FirstMatch(p, d)
    ensures !AnyMatch(p, d) ==>
      FirstMatch(p + [x], d) == if Matches(x, d) then Suggestion(x.category, x.confidence) else Fallback
    ensures AnyMatch(p, d) ==> exists k :: 0 <= k < |p| && FirstMatch(p, d) == Suggestion(p[k].category, p[k].confidence)
  {
    if |p| > 0 {
      assert (p + [x])[1..] == p[1..] + [x];
      assert (p + [x])[0] == p[0];
      FirstMatchAppend(p[1..], x, d);
      if !Matches(p[0], d) {
        assert AnyMatch(p, d) <==> AnyMatch(p[1..], d) by {
          if AnyMatch(p, d) {
            var k :| 0 <= k < |p| && Matches(p[k], d);
            assert p[1..][k - 1] == p[k];
          }
          if AnyMatch(p[1..], d) {
            var k :| 0 <= k < |p| - 1 && Matches(p[1..][k], d);
            assert p[k + 1] == p[1..][k];
          }
        }
        if AnyMatch(p[1..], d) {
          var k :| 0 <= k < |p| - 1 && FirstMatch(p[1..], d) == Suggestion(p[1..][k].category, p[1..][k].confidence);
          assert p[k + 1] == p[1..][k];
        }
      } else {
        assert Matches(p[0], d);
      }
    }
  }

  /** For a strictly decreasing table above 50, the loop's strict-greater
      replacement picks the first matching rule. */
  lemma {:induction false} ScanIsFirstMatch(rs: seq<Rule>, d: string)
    requires Decreasing(rs)
    ensures Scan(rs, d) == FirstMatch(rs, d)
  {
    if |rs| > 0 {
      var n := |rs| - 1;
      var p, x := rs[..n], rs[n];
      assert rs == p + [x];
      assert Decreasing(p);
      ScanIsFirstMatch(p, d);
      FirstMatchAppend(p, x, d);
      var best := Scan(p, d);
      assert Scan(rs, d) == if Matches(x, d) && Candidate(x, d) > best.confidence
        then Suggestion(x.category, Candidate(x, d)) else best;
      if AnyMatch(p, d) {
        var k :| 0 <= k < |p| && FirstMatch(p, d) == Suggestion(p[k].category, p[k].confidence);
        assert best.confidence == rs[k].confidence > x.confidence;
      } else {
        FirstMatchNone(p, d);
      }
    }
  }

  /** The best match is either the fallback or the first rule whose keyword
      occurs, with that rule's confidence. */
  lemma {:induction false} FirstMatchIsFirst(rs: seq<Rule>, d: string, j: nat)
    requires j < |rs| && Matches(rs[j], d)
    requires forall k :: 0 <= k < j ==> !Matches(rs[k], d)
    ensures FirstMatch(rs, d) == Suggestion(rs[j].category, rs[j].confidence)
  {
    if j > 0 {
      assert forall k :: 0 <= k < j - 1 ==> rs[1..][k] == rs[k + 1];
      FirstMatchIsFirst(rs[1..], d, j - 1);
    }
  }

  /** Without any matching rule the fallback stands. */
  lemma {:induction false} FirstMatchNone(rs: seq<Rule>, d: string)
    requires !AnyMatch(rs, d)
    ensures FirstMatch(rs, d) == Fallback
  {
    if |rs| > 0 {
      assert !Matches(rs[0], d);
      forall k | 0 <= k < |rs| - 1
        ensures !Matches(rs[1..][k], d)
      {
        assert rs[1..][k] == rs[k + 1];
      }
      FirstMatchNone(rs[1..], d);
    }
  }

  datatype Rejection = DescriptionRequired

  /** `suggestCategory`: refuse a blank description, otherwise try every rule
      in order and keep a candidate only when it is strictly more confident
      than the best so far. */
  method SuggestCategory(description: string) returns (r: Result<Suggestion, Rejection>)
    ensures Blank(description) <==> r.Failure?
    ensures r.Success? ==> r.value == FirstMatch(Rules(), Lower(description))
    ensures r.Success? ==>
      (r.value == Fallback || (Fallback.confidence < r.value.confidence &&
       exists k :: 0 <= k < |Rules()| && r.value == Suggestion(Rules()[k].category, Rules()[k].confidence)))
  {
    if Blank(description) {
      return Failure(DescriptionRequired);
    }
    var d := Lower(description);
    var best := ScanRules(Rules(), d);
    RulesDecreasing();
    ScanIsFirstMatch(Rules(), d);
    return Success(best);
  }

  /** The loop of `suggestCategory` over the rules `rs`, in order: it ends
      with the best match as `Scan` defines it. */
  method ScanRules(rs: seq<Rule>, d: string) returns (best: Suggestion)
    ensures best == Scan(rs, d)
  {
    best := Fallback;
    var i := 0;
    while i < |rs|
      invariant 0 <= i <= |rs|
      invariant best == Scan(rs[..i], d)
    {
      var rule := rs[i];
      var m := MatchCount(rule.keywords, d);
      if m > 0 {
        var confidence := Min(rule.confidence, rule.confidence + m * 5);
        if confidence > best.confidence {
          best := Suggestion(rule.category, confidence);
        }
      }
      assert rs[..i + 1][..i] == rs[..i];
      i := i + 1;
    }
    assert rs[..i] == rs;
  }
}
