/**
 * The language statistics of a repository (`create_languages_stat`):
 * the mapping language -> byte count the API returns, folded to at most
 * four entries, and each byte count turned into a percentage truncated
 * to one decimal.
 *
 * A Python dict keeps insertion order, so a mapping is an ordered
 * sequence of (key, value) pairs; the API never repeats a key.
 */
module LanguageStats {
  import opened Wrappers
  import opened Text

  /** One entry of the languages mapping: a language name and its byte count. */
  type Entry = (string, nat)

  const OTHER_KEY := "Other"
  const MAX_ENTRIES := 4
  const KEPT_ENTRIES := 3

  function Keys<V>(d: seq<(string, V)>): (ks: seq<string>)
    ensures |ks| == |d|
    ensures forall i :: 0 <= i < |d| ==> ks[i] == d[i].0
  {
    seq(|d|, i requires 0 <= i < |d| => d[i].0)
  }

  /** The position of key `k` in `d`, or `|d|` when `k` is not a key. */
  function IndexOf<V>(d: seq<(string, V)>, k: string): (i: nat)
    ensures i <= |d|
    ensures i < |d| ==> d[i].0 == k
    ensures forall j :: 0 <= j < i ==> d[j].0 != k
  {
    if d == [] then 0 else if d[0].0 == k then 0 else 1 + IndexOf(d[1..], k)
  }

  /** `sum(d.values())`. */
  function Total(d: seq<Entry>): nat {
    if d == [] then 0 else d[0].1 + Total(d[1..])
  }

  lemma {:induction false} TotalAppend(a: seq<Entry>, b: seq<Entry>)
    ensures Total(a + b) == Total(a) + Total(b)
  {
    if a == [] {
      assert a + b == b;
    } else {
      assert (a + b)[1..] == a[1..] + b;
      TotalAppend(a[1..], b);
    }
  }

  /** Replacing the value of one entry changes the total by the difference. */
  lemma {:induction false} TotalUpdate(d: seq<Entry>, j: nat, e: Entry)
    requires j < |d|
    ensures Total(d[j := e]) + d[j].1 == Total(d) + e.1
  {
    if j > 0 {
      assert d[j := e][1..] == d[1..][j - 1 := e];
      TotalUpdate(d[1..], j - 1, e);
    }
  }

  /** Every single byte count is at most the total. */
  lemma {:induction false} EntryAtMostTotal(d: seq<Entry>, i: nat)
    requires i < |d|
    ensures d[i].1 <= Total(d)
  {
    if i > 0 {
      EntryAtMostTotal(d[1..], i - 1);
    }
  }

  /**
   * Python's `d | {k: v}`: when `k` is already a key its value is
   * replaced where it stands; otherwise the entry is appended.
   */
  function Union(d: seq<Entry>, k: string, v: nat): (r: seq<Entry>)
    ensures IndexOf(d, k) == |d| ==> r == d + [(k, v)]
    ensures IndexOf(d, k) < |d| ==> r == d[IndexOf(d, k) := (k, v)]
  {
    if d == [] then [(k, v)]
    else if d[0].0 == k then [(k, v)] + d[1..]
    else
      var r := [d[0]] + Union(d[1..], k, v);
      assert IndexOf(d, k) < |d| ==> r == d[IndexOf(d, k) := (k, v)] by {
        if IndexOf(d, k) < |d| {
          var i := IndexOf(d, k);
          assert r == [d[0]] + d[1..][i - 1 := (k, v)];
        }
      }
      r
  }

  /**
   * The fold of ghfetch/main.py:46-48: with more than four entries keep
   * the first three and put the sum of the rest under "Other", which
   * overwrites a language of that name among the first three.
   */
  function Fold(d: seq<Entry>): (r: seq<Entry>)
    ensures |r| <= MAX_ENTRIES
    ensures |d| <= MAX_ENTRIES ==> r == d
    ensures |d| > MAX_ENTRIES && IndexOf(d[..KEPT_ENTRIES], OTHER_KEY) == KEPT_ENTRIES ==>
              r == d[..KEPT_ENTRIES] + [(OTHER_KEY, Total(d[KEPT_ENTRIES..]))]
    ensures |d| > MAX_ENTRIES && IndexOf(d[..KEPT_ENTRIES], OTHER_KEY) < KEPT_ENTRIES ==>
              r == d[..KEPT_ENTRIES][IndexOf(d[..KEPT_ENTRIES], OTHER_KEY) := (OTHER_KEY, Total(d[KEPT_ENTRIES..]))]
  {
    if |d| > MAX_ENTRIES then Union(d[..KEPT_ENTRIES], OTHER_KEY, Total(d[KEPT_ENTRIES..])) else d
  }

  /**
   * Folding keeps the total number of bytes, unless one of the first
   * three languages is literally named "Other": then its own bytes are
   * overwritten by the sum of the rest and drop out of the total.
   */
  lemma FoldTotal(d: seq<Entry>)
    ensures |d| <= MAX_ENTRIES || IndexOf(d[..KEPT_ENTRIES], OTHER_KEY) == KEPT_ENTRIES ==>
              Total(Fold(d)) == Total(d)
    ensures |d| > MAX_ENTRIES && IndexOf(d[..KEPT_ENTRIES], OTHER_KEY) < KEPT_ENTRIES ==>
              Total(Fold(d)) + d[IndexOf(d[..KEPT_ENTRIES], OTHER_KEY)].1 == Total(d)
  {
    if |d| > MAX_ENTRIES {
      var head, rest := d[..KEPT_ENTRIES], d[KEPT_ENTRIES..];
      var other := (OTHER_KEY, Total(rest));
      assert d == head + rest;
      TotalAppend(head, rest);
      var j := IndexOf(head, OTHER_KEY);
      if j == KEPT_ENTRIES {
        TotalAppend(head, [other]);
        assert Total([other]) == Total(rest);
      } else {
        TotalUpdate(head, j, other);
      }
    }
  }

  /** The percentage of `v` in tenths, truncated: `floor(v / total * 1000)`. */
  function Tenths(v: nat, total: nat): (q: nat)
    requires total > 0
    ensures q * total <= v * 1000 < (q + 1) * total
    ensures v <= total ==> q <= 1000
  {
    var q := v * 1000 / total;
    assert v * 1000 == q * total + v * 1000 % total;
    if v <= total then
      MulMonotone(v, total, 1000);
      MulCancel(q, 1000, total);
      q
    else q
  }

  lemma MulMonotone(a: nat, b: nat, t: nat)
    requires a <= b
    ensures a * t <= b * t
  {
    assert b * t == a * t + (b - a) * t;
  }

  /** Cancelling a positive factor: `a * t <= b * t` gives `a <= b`. */
  lemma MulCancel(a: nat, b: nat, t: nat)
    requires t > 0 && a * t <= b * t
    ensures a <= b
  {
    if b < a {
      MulMonotone(b + 1, a, t);
    }
  }

  /** How Python prints `q / 10` followed by a percent sign: `"<q // 10>.<q % 10>%"`. */
  function FormatTenths(q: nat): (s: string)
    ensures ParsePercent(s) == Some(q)
  {
    var s := NatToString(q / 10) + "." + [DigitChar(q % 10)] + "%";
    assert s[..|s| - 3] == NatToString(q / 10);
    ParseNatToString(q / 10);
    s
  }

  /** Reads back a percentage written as digits, a point, one digit and `%`, in tenths. */
  function ParsePercent(s: string): Option<nat> {
    if |s| >= 4 && s[|s| - 1] == '%' && IsDigit(s[|s| - 2]) && s[|s| - 3] == '.' && AllDigits(s[..|s| - 3])
    then Some(ParseNat(s[..|s| - 3]) * 10 + DigitValue(s[|s| - 2]))
    else None
  }

  /** The dict comprehension of ghfetch/main.py:52 over the folded mapping. */
  function Percentages(d: seq<Entry>): (r: seq<(string, string)>)
    requires d == [] || Total(d) > 0
    ensures Keys(r) == Keys(d)
    ensures forall i :: 0 <= i < |d| ==> ParsePercent(r[i].1) == Some(Tenths(d[i].1, Total(d)))
    ensures forall i :: 0 <= i < |d| ==> Tenths(d[i].1, Total(d)) <= 1000
  {
    var r := seq(|d|, i requires 0 <= i < |d| => (d[i].0, FormatTenths(Tenths(d[i].1, Total(d)))));
    assert forall i :: 0 <= i < |d| ==> d[i].1 <= Total(d) by {
      forall i | 0 <= i < |d| ensures d[i].1 <= Total(d) { EntryAtMostTotal(d, i); }
    }
    r
  }

  /** The reply to the GET of a repository's languages URL. */
  datatype LangResponse = LangResponse(status: int, languages: seq<Entry>)

  /** What `create_languages_stat` yields: a status code, the table, or a ZeroDivisionError. */
  datatype Languages =
    | HttpStatus(code: int)
    | Table(entries: seq<(string, string)>)
    | DivisionByZero

  /** `create_languages_stat` (ghfetch/main.py:37-52) given the server's reply. */
  function LanguagesStat(resp: LangResponse): (r: Languages)
    ensures r.HttpStatus? <==> resp.status != 200
    ensures r.HttpStatus? ==> r.code == resp.status
    ensures r.DivisionByZero? <==> resp.status == 200 && resp.languages != [] && Total(Fold(resp.languages)) == 0
    ensures r.Table? ==> |r.entries| <= MAX_ENTRIES && Keys(r.entries) == Keys(Fold(resp.languages))
    ensures r.Table? && resp.languages == [] ==> r.entries == []
    ensures r.Table? ==> r.entries == Percentages(Fold(resp.languages))
  {
    if resp.status != 200 then HttpStatus(resp.status)
    else
      var folded := Fold(resp.languages);
      if folded != [] && Total(folded) == 0 then DivisionByZero
      else Table(Percentages(folded))
  }

  /** The sum of the truncated percentages of `d` against `total`, in tenths. */
  function SumTenths(d: seq<Entry>, total: nat): nat
    requires total > 0
  {
    if d == [] then 0 else Tenths(d[0].1, total) + SumTenths(d[1..], total)
  }

  lemma Distrib(a: int, b: int, t: int)
    ensures (a + b) * t == a * t + b * t
  {
  }

  lemma {:induction false} SumTenthsBounds(d: seq<Entry>, total: nat)
    requires total > 0
    ensures SumTenths(d, total) * total <= Total(d) * 1000
    ensures d != [] ==> Total(d) * 1000 < (SumTenths(d, total) + |d|) * total
  {
    if d != [] {
      var rest := d[1..];
      SumTenthsBounds(rest, total);
      var q := Tenths(d[0].1, total);
      var s := SumTenths(rest, total);
      Distrib(q, s, total);
      Distrib(d[0].1, Total(rest), 1000);
      Distrib(q + 1, s + |rest|, total);
      assert SumTenths(d, total) == q + s;
      assert Total(d) == d[0].1 + Total(rest);
    }
  }

  /**
   * Truncation loses less than one tenth per entry: the percentages of a
   * non-empty mapping add up to at most 100.0 and to more than
   * 100.0 minus one tenth per entry.
   */
  lemma PercentagesSum(d: seq<Entry>)
    requires d != [] && Total(d) > 0
    ensures SumTenths(d, Total(d)) <= 1000 < SumTenths(d, Total(d)) + |d|
  {
    var t, s := Total(d), SumTenths(d, Total(d));
    SumTenthsBounds(d, t);
    MulCancel(s, 1000, t);
    if s + |d| <= 1000 {
      MulMonotone(s + |d|, 1000, t);
    }
  }
}
