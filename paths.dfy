/** The two string operations the extension check relies on: `os.path.splitext`
    (POSIX flavour, separator '/') and `str.upper` restricted to ASCII letters. */
module Paths {

  /** Index of the last occurrence of `c` in `s`, or -1 (Python's `str.rfind`). */
  function LastIndex(s: string, c: char): (i: int)
    ensures -1 <= i < |s|
    ensures i >= 0 ==> s[i] == c
    ensures forall j :: i < j < |s| ==> s[j] != c
  {
    if s == [] then -1
    else if s[|s| - 1] == c then |s| - 1
    else LastIndex(s[..|s| - 1], c)
  }

  /** `os.path.splitext(p)`: the extension runs from the last '.' of the last path
      component, unless everything before that dot in the component is dots. */
  function SplitExt(p: string): (r: (string, string))
    ensures r.0 + r.1 == p
    ensures r.1 != [] ==> r.1[0] == '.' && forall k :: 0 < k < |r.1| ==> r.1[k] != '.' && r.1[k] != '/'
    ensures r.1 != [] ==> exists k :: 0 <= k < |r.0| && r.0[k] != '.' && r.0[k] != '/' &&
                                      forall m :: k < m < |r.0| ==> r.0[m] != '/'
  {
    var sep := LastIndex(p, '/');
    var dot := LastIndex(p, '.');
    if dot > sep && exists j :: sep + 1 <= j < dot && p[j] != '.' then
      (p[..dot], p[dot..])
    else
      (p, [])
  }

  function UpperChar(c: char): char {
    if 'a' <= c <= 'z' then (c as int - 32) as char else c
  }

  /** `s.upper()` on ASCII text */
  function Upper(s: string): (r: string)
    ensures |r| == |s|
    ensures forall i :: 0 <= i < |s| ==> r[i] == UpperChar(s[i])
  {
    seq(|s|, i requires 0 <= i < |s| => UpperChar(s[i]))
  }

  /** `[item.upper() for item in xs]` */
  function UpperAll(xs: seq<string>): (r: seq<string>)
    ensures |r| == |xs|
    ensures forall i :: 0 <= i < |xs| ==> r[i] == Upper(xs[i])
  {
    seq(|xs|, i requires 0 <= i < |xs| => Upper(xs[i]))
  }

  /** The last occurrence is determined by its two defining facts. */
  lemma LastIndexIs(s: string, c: char, k: int)
    requires 0 <= k < |s| && s[k] == c
    requires forall j :: k < j < |s| ==> s[j] != c
    ensures LastIndex(s, c) == k
  {
  }

  /** A last path component with a '.' after a character that is not a dot has an
      extension, and it is the text from the last '.' on. */
  lemma SplitExtFindsExtension(p: string, j: int, k: int)
    requires 0 <= j < k < |p| && p[j] != '.' && p[k] == '.'
    requires forall m :: j <= m < |p| ==> p[m] != '/'
    ensures SplitExt(p).1 != []
    ensures SplitExt(p) == (p[..LastIndex(p, '.')], p[LastIndex(p, '.')..])
  {
  }

  lemma SplitExtExamples()
    ensures SplitExt("/rec/data.dat") == ("/rec/data", ".dat")
    ensures SplitExt("/rec.d/data") == ("/rec.d/data", "")
    ensures SplitExt("/rec/.dat") == ("/rec/.dat", "")
  {
    var p := "/rec/data.dat";
    LastIndexIs(p, '/', 4);
    LastIndexIs(p, '.', 9);
    assert p[5] != '.';
    assert p[..9] == "/rec/data" && p[9..] == ".dat";
    var q := "/rec.d/data";
    LastIndexIs(q, '/', 6);
    LastIndexIs(q, '.', 4);
    var h := "/rec/.dat";
    LastIndexIs(h, '/', 4);
    LastIndexIs(h, '.', 5);
  }
}
