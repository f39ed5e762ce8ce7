/**
 * The company-name sanitiser of `getContracts`: the global regular-expression
 * replace `/[^a-zA-Z0-9]/g` by the empty string, followed by the mocked
 * contract lookup, which answers one record per call.
 */
module Sanitizer {

  /** One row of the mocked contract table. */
  datatype Contract = Contract(empresa: string, contrato: string)

  const CONTRACT_NAME: string := "Contrato 1"

  /** The character class `[a-zA-Z0-9]`: ASCII letters and digits only. */
  predicate IsAsciiAlnum(c: char) {
    ('a' <= c <= 'z') || ('A' <= c <= 'Z') || ('0' <= c <= '9')
  }

  predicate AllAlnum(s: string) {
    forall i :: 0 <= i < |s| ==> IsAsciiAlnum(s[i])
  }

  /** `r` is obtained from `s` by deleting some of its characters. */
  predicate IsSubsequence(r: string, s: string)
    decreases |s|
  {
    if r == [] then true
    else if s == [] then false
    else (r[0] == s[0] && IsSubsequence(r[1..], s[1..])) || IsSubsequence(r, s[1..])
  }

  /** Removes every character outside `[a-zA-Z0-9]`, keeping the rest in order. */
  function Sanitize(s: string): (r: string)
    ensures AllAlnum(r)
    ensures |r| <= |s|
  {
    if s == [] then []
    else if IsAsciiAlnum(s[0]) then [s[0]] + Sanitize(s[1..])
    else Sanitize(s[1..])
  }

  /** The mocked lookup: exactly one record, for the sanitised company name. */
  function GetContracts(empresa: string): (r: seq<Contract>)
    ensures |r| == 1
    ensures AllAlnum(r[0].empresa) && IsSubsequence(r[0].empresa, empresa)
    ensures forall c :: IsAsciiAlnum(c) ==> multiset(r[0].empresa)[c] == multiset(empresa)[c]
    ensures r[0].contrato == "Contrato 1"
  {
    SanitizeIsSubsequence(empresa);
    forall c | IsAsciiAlnum(c) ensures multiset(Sanitize(empresa))[c] == multiset(empresa)[c] {
      SanitizeCounts(empresa, c);
    }
    [Contract(Sanitize(empresa), CONTRACT_NAME)]
  }

  /** The output is a subsequence of the input: characters are only deleted, never reordered. */
  lemma {:induction false} SanitizeIsSubsequence(s: string)
    ensures IsSubsequence(Sanitize(s), s)
  {
    if s != [] {
      SanitizeIsSubsequence(s[1..]);
      if !IsAsciiAlnum(s[0]) && Sanitize(s) != [] {
        SubsequenceOfTail(Sanitize(s), s);
      }
    }
  }

  lemma SubsequenceOfTail(r: string, s: string)
    requires s != [] && IsSubsequence(r, s[1..])
    ensures IsSubsequence(r, s)
  {
  }

  /** Every ASCII letter or digit survives, as often as it occurs; everything else is gone. */
  lemma {:induction false} SanitizeCounts(s: string, c: char)
    ensures multiset(Sanitize(s))[c] == if IsAsciiAlnum(c) then multiset(s)[c] else 0
  {
    if s != [] {
      SanitizeCounts(s[1..], c);
      assert s == [s[0]] + s[1..];
      assert multiset(s) == multiset([s[0]]) + multiset(s[1..]);
      if IsAsciiAlnum(s[0]) {
        assert multiset(Sanitize(s)) == multiset([s[0]]) + multiset(Sanitize(s[1..]));
      }
    }
  }

  /** Sanitising distributes over concatenation, as a global replace does. */
  lemma {:induction false} SanitizeAppend(a: string, b: string)
    ensures Sanitize(a + b) == Sanitize(a) + Sanitize(b)
  {
    if a == [] {
      assert a + b == b;
    } else {
      assert (a + b)[1..] == a[1..] + b;
      SanitizeAppend(a[1..], b);
    }
  }

  /** A string of letters and digits only is its own sanitisation. */
  lemma {:induction false} SanitizeFixedPoint(s: string)
    requires AllAlnum(s)
    ensures Sanitize(s) == s
  {
    if s != [] {
      TailAllAlnum(s);
      SanitizeFixedPoint(s[1..]);
    }
  }

  /** Sanitising twice is sanitising once. */
  lemma SanitizeIdempotent(s: string)
    ensures Sanitize(Sanitize(s)) == Sanitize(s)
  {
    SanitizeFixedPoint(Sanitize(s));
  }

  lemma {:induction false} SubsequenceCounts(r: string, s: string, c: char)
    requires IsSubsequence(r, s)
    ensures multiset(r)[c] <= multiset(s)[c]
    decreases |s|
  {
    if r != [] {
      assert s == [s[0]] + s[1..];
      assert multiset(s)[c] == multiset([s[0]])[c] + multiset(s[1..])[c];
      if r[0] == s[0] && IsSubsequence(r[1..], s[1..]) {
        SubsequenceCounts(r[1..], s[1..], c);
        assert r == [r[0]] + r[1..];
        assert multiset(r)[c] == multiset([r[0]])[c] + multiset(r[1..])[c];
      } else {
        SubsequenceCounts(r, s[1..], c);
      }
    }
  }

  /**
   * The output is exactly the alphanumeric subsequence of the input: any
   * subsequence made of letters and digits that keeps every letter and digit
   * of the input is the sanitised string.
   */
  lemma {:induction false} SanitizeUnique(r: string, s: string)
    requires IsSubsequence(r, s) && AllAlnum(r)
    requires forall c :: IsAsciiAlnum(c) ==> multiset(r)[c] == multiset(s)[c]
    ensures r == Sanitize(s)
    decreases |s|
  {
    if s != [] {
      var x, t := s[0], s[1..];
      assert s == [x] + t;
      assert multiset(s) == multiset{x} + multiset(t);
      if r != [] && r[0] == x && IsSubsequence(r[1..], t) {
        var rest := r[1..];
        assert r == [x] + rest;
        assert multiset(r) == multiset{x} + multiset(rest);
        TailAllAlnum(r);
        SanitizeUnique(rest, t);
      } else {
        if IsAsciiAlnum(x) {
          SubsequenceCounts(r, t, x);
          assert false;
        }
        SanitizeUnique(r, t);
      }
    }
  }

  lemma TailAllAlnum(s: string)
    requires s != [] && AllAlnum(s)
    ensures AllAlnum(s[1..])
  {
  }

  lemma SanitizeExampleHead()
    ensures Sanitize("Acme & ") == "Acme"
  {
  }

  lemma SanitizeExampleTail()
    ensures Sanitize("Co.!!") == "Co"
  {
  }

  /** The worked example: `"Acme & Co.!!"` sanitises to `"AcmeCo"`. */
  lemma SanitizeExample(company: string)
    requires company == "Acme & Co.!!"
    ensures Sanitize(company) == "AcmeCo"
  {
    SanitizeExampleHead();
    SanitizeExampleTail();
    SanitizeAppend("Acme & ", "Co.!!");
    assert "Acme & " + "Co.!!" == company;
  }

  /** The contract lookup for that company answers one record, for `"AcmeCo"`. */
  lemma GetContractsExample()
    ensures GetContracts("Acme & Co.!!") == [Contract("AcmeCo", "Contrato 1")]
  {
    SanitizeExample("Acme & Co.!!");
  }
}
