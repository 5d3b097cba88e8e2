/**
  Request helpers: the base URL of the service, and the middleware that
  checks a request's Accept header against the media types a route can send.
 */
module Utils {
  import opened Values
  import opened Http

  /** `getUrl`: the scheme is https exactly when the `PORT` environment
      variable is set (non-empty), followed by the request's Host header. */
  function GetUrl(port: Option<string>, host: string): (u: string)
    ensures Present(port) ==> u == "https://" + host
    ensures !Present(port) ==> u == "http://" + host
  {
    (if Present(port) then "https" else "http") + "://" + host
  }

  /** The host can be read back from the URL, and the scheme tells whether `PORT` was set. */
  lemma GetUrlParts(port: Option<string>, host: string)
    ensures var u := GetUrl(port, host);
      && (Present(port) ==> u[..8] == "https://" && u[8..] == host)
      && (!Present(port) ==> u[..7] == "http://" && u[7..] == host)
  {
  }

  // Splitting and joining, as `String.prototype.split` with a one-character
  // separator and `Array.prototype.join`.

  /** `s.split(sep)`: the pieces between the separators, at least one. */
  function Split(s: string, sep: char): (parts: seq<string>)
    ensures |parts| >= 1
    ensures forall i :: 0 <= i < |parts| ==> sep !in parts[i]
    decreases |s|
  {
    if s == [] then [""]
    else
      var rest := Split(s[1..], sep);
      if s[0] == sep then [""] + rest else [[s[0]] + rest[0]] + rest[1..]
  }

  /** `parts.join(sep)`. */
  function Join(parts: seq<string>, sep: string): string
    decreases |parts|
  {
    if parts == [] then ""
    else if |parts| == 1 then parts[0]
    else parts[0] + sep + Join(parts[1..], sep)
  }

  /** Joining the pieces with the separator gives the text back. */
  lemma {:induction false} JoinSplit(s: string, sep: char)
    ensures Join(Split(s, sep), [sep]) == s
    decreases |s|
  {
    if s != [] {
      JoinSplit(s[1..], sep);
      var rest := Split(s[1..], sep);
      if s[0] != sep {
        if |rest| == 1 {
          assert Split(s, sep) == [[s[0]] + rest[0]];
        } else {
          assert Split(s, sep) == [[s[0]] + rest[0]] + rest[1..];
          assert ([[s[0]] + rest[0]] + rest[1..])[1..] == rest[1..];
          assert Join(rest, [sep]) == rest[0] + [sep] + Join(rest[1..], [sep]);
        }
      }
    }
  }

  /** Splitting a join of pieces that hold no separator gives the pieces back. */
  lemma {:induction false} SplitJoin(parts: seq<string>, sep: char)
    requires |parts| >= 1
    requires forall i :: 0 <= i < |parts| ==> sep !in parts[i]
    ensures Split(Join(parts, [sep]), sep) == parts
    decreases |parts|
  {
    if |parts| == 1 {
      SplitNoSeparator(parts[0], sep);
    } else {
      SplitJoin(parts[1..], sep);
      SplitAfter(parts[0], Join(parts[1..], [sep]), sep);
      assert [parts[0]] + parts[1..] == parts;
    }
  }

  /** Text without the separator is one piece. */
  lemma {:induction false} SplitNoSeparator(s: string, sep: char)
    requires sep !in s
    ensures Split(s, sep) == [s]
    decreases |s|
  {
    if s != [] {
      SplitNoSeparator(s[1..], sep);
      assert [s[0]] + s[1..] == s;
    }
  }

  /** A separator-free prefix and a separator start the list of pieces. */
  lemma {:induction false} SplitAfter(head: string, tail: string, sep: char)
    requires sep !in head
    ensures Split(head + [sep] + tail, sep) == [head] + Split(tail, sep)
    decreases |head|
  {
    if head == [] {
      assert head + [sep] + tail == [sep] + tail;
      assert ([sep] + tail)[1..] == tail;
    } else {
      SplitAfter(head[1..], tail, sep);
      assert (head + [sep] + tail)[1..] == head[1..] + [sep] + tail;
      assert [head[0]] + head[1..] == head;
    }
  }

  // Trimming, as `String.prototype.trim`.

  /** The white space and line terminators of ECMAScript, which `trim` removes. */
  predicate IsSpace(c: char)
  {
    || c == '\U{0009}' || c == '\U{000A}' || c == '\U{000B}' || c == '\U{000C}' || c == '\U{000D}'
    || c == '\U{0020}' || c == '\U{00A0}' || c == '\U{1680}' || ('\U{2000}' <= c <= '\U{200A}')
    || c == '\U{2028}' || c == '\U{2029}' || c == '\U{202F}' || c == '\U{205F}' || c == '\U{3000}'
    || c == '\U{FEFF}'
  }

  /** The number of white-space characters `s` starts with. */
  function Leading(s: string): (n: nat)
    ensures n <= |s|
    ensures forall i :: 0 <= i < n ==> IsSpace(s[i])
    ensures n < |s| ==> !IsSpace(s[n])
    decreases |s|
  {
    if s != [] && IsSpace(s[0]) then 1 + Leading(s[1..]) else 0
  }

  /** The number of white-space characters `s` ends with. */
  function Trailing(s: string): (n: nat)
    ensures n <= |s|
    ensures forall i :: |s| - n <= i < |s| ==> IsSpace(s[i])
    ensures n < |s| ==> !IsSpace(s[|s| - n - 1])
    decreases |s|
  {
    if s != [] && IsSpace(s[|s| - 1]) then 1 + Trailing(s[..|s| - 1]) else 0
  }

  /** `s.trim()`: `s` without its leading and trailing white space. */
  function Trim(s: string): (t: string)
    ensures t == s[Leading(s)..|s| - Trailing(s[Leading(s)..])]
    ensures t != [] ==> !IsSpace(t[0]) && !IsSpace(t[|t| - 1])
    ensures forall c :: c in t ==> c in s
  {
    var rest := s[Leading(s)..];
    rest[..|rest| - Trailing(rest)]
  }

  /** Text that neither starts nor ends with white space is its own trim. */
  lemma TrimClean(s: string)
    requires s != [] ==> !IsSpace(s[0]) && !IsSpace(s[|s| - 1])
    ensures Trim(s) == s
  {
    assert Leading(s) == 0;
    assert s[0..] == s;
    assert Trailing(s) == 0;
  }

  // The Accept header.

  /** `part.split(";")[0].trim()`: a media range without its parameters. */
  function MediaRange(part: string): (t: string)
    ensures ';' !in t
  {
    Trim(Split(part, ';')[0])
  }

  /** The parsed Accept list of `validateMIME`: the header (or `""` when it is
      missing) split on commas, each part's media range, empty ones dropped. */
  function AcceptedTypes(header: Option<string>): (types: seq<string>)
    ensures forall i :: 0 <= i < |types| ==> types[i] != "" && ';' !in types[i]
  {
    Ranges(Split(if header.Some? then header.value else "", ','))
  }

  /** The non-empty media ranges of `parts`, in order. */
  function Ranges(parts: seq<string>): (types: seq<string>)
    ensures forall i :: 0 <= i < |types| ==> types[i] != "" && ';' !in types[i]
    ensures |types| <= |parts|
    decreases |parts|
  {
    if parts == [] then []
    else
      var t := MediaRange(parts[0]);
      var rest := Ranges(parts[1..]);
      if t != "" then [t] + rest else rest
  }

  /** Every non-empty media range of the header's parts is in the parsed list. */
  lemma {:induction false} RangesComplete(parts: seq<string>, i: nat)
    requires i < |parts| && MediaRange(parts[i]) != ""
    ensures MediaRange(parts[i]) in Ranges(parts)
    decreases |parts|
  {
    var rest := Ranges(parts[1..]);
    assert Ranges(parts) == if MediaRange(parts[0]) != "" then [MediaRange(parts[0])] + rest else rest;
    if i > 0 {
      assert parts[1..][i - 1] == parts[i];
      RangesComplete(parts[1..], i - 1);
    }
  }

  /** Each index one further on. */
  function Shifted(js: seq<nat>): (r: seq<nat>)
    ensures |r| == |js| && forall i :: 0 <= i < |js| ==> r[i] == js[i] + 1
  {
    seq(|js|, i requires 0 <= i < |js| => js[i] + 1)
  }

  /** The indices of the parts whose media range is kept, in order. */
  function RangeSources(parts: seq<string>): (js: seq<nat>)
    ensures |js| == |Ranges(parts)|
    decreases |parts|
  {
    if parts == [] then []
    else if MediaRange(parts[0]) != "" then [0] + Shifted(RangeSources(parts[1..]))
    else Shifted(RangeSources(parts[1..]))
  }

  /** Where the parsed list comes from: entry `i` of `Ranges(parts)` is the
      media range of part `RangeSources(parts)[i]`. */
  lemma {:induction false} RangeSourcesSound(parts: seq<string>)
    ensures forall i :: 0 <= i < |RangeSources(parts)| ==>
      RangeSources(parts)[i] < |parts| && Ranges(parts)[i] == MediaRange(parts[RangeSources(parts)[i]])
    decreases |parts|
  {
    if parts != [] {
      var tail := parts[1..];
      RangeSourcesSound(tail);
      var rest := RangeSources(tail);
      var shifted := Shifted(rest);
      var head := MediaRange(parts[0]);
      var js := RangeSources(parts);
      var ranges := Ranges(parts);
      assert js == if head != "" then [0] + shifted else shifted;
      assert ranges == if head != "" then [head] + Ranges(tail) else Ranges(tail);
      var d := if head != "" then 1 else 0;
      forall i | d <= i < |js|
        ensures js[i] < |parts| && ranges[i] == MediaRange(parts[js[i]])
      {
        var r := rest[i - d];
        assert js[i] == r + 1 && ranges[i] == Ranges(tail)[i - d];
        assert r < |tail| && parts[r + 1] == tail[r];
      }
    }
  }

  /** Strictly increasing indices. */
  predicate Ascending(js: seq<nat>)
  {
    forall i, k :: 0 <= i < k < |js| ==> js[i] < js[k]
  }

  /** Shifting ascending indices keeps them ascending and makes them positive,
      so index 0 can go in front. */
  lemma ShiftedAscending(js: seq<nat>)
    requires Ascending(js)
    ensures Ascending(Shifted(js)) && Ascending([0] + Shifted(js))
  {
    var r := Shifted(js);
    var z := [0] + r;
    forall i, k | 0 <= i < k < |z|
      ensures z[i] < z[k]
    {
      assert z[k] == r[k - 1];
      if i > 0 {
        assert z[i] == r[i - 1];
      }
    }
  }

  /** The kept parts' indices increase: the parsed list keeps the header's order. */
  lemma {:induction false} RangeSourcesIncreasing(parts: seq<string>)
    ensures Ascending(RangeSources(parts))
    decreases |parts|
  {
    if parts != [] {
      RangeSourcesIncreasing(parts[1..]);
      ShiftedAscending(RangeSources(parts[1..]));
    }
  }

  /** Every part with a non-empty media range is among the kept parts. */
  lemma {:induction false} RangeSourcesComplete(parts: seq<string>, j: nat)
    requires j < |parts| && MediaRange(parts[j]) != ""
    ensures j in RangeSources(parts)
    decreases |parts|
  {
    if j > 0 {
      assert parts[1..][j - 1] == parts[j];
      RangeSourcesComplete(parts[1..], j - 1);
      var rest := RangeSources(parts[1..]);
      var i :| 0 <= i < |rest| && rest[i] == j - 1;
      assert Shifted(rest)[i] == j;
    }
  }

  /** Every entry of the parsed list is the media range of some part. */
  lemma RangesSound(parts: seq<string>, i: nat)
    requires i < |Ranges(parts)|
    ensures exists j :: 0 <= j < |parts| && Ranges(parts)[i] == MediaRange(parts[j])
  {
    RangeSourcesSound(parts);
    var js := RangeSources(parts);
    assert |js| == |Ranges(parts)|;
    assert Ranges(parts)[i] == MediaRange(parts[js[i]]);
  }

  /** `isAnyTypeAcceptable`: some parsed type is the wildcard range or one of `acceptable`. */
  predicate AnyAcceptable(types: seq<string>, acceptable: seq<string>)
  {
    exists i :: 0 <= i < |types| && (types[i] == "*/*" || types[i] in acceptable)
  }

  /** `acceptableRequestTypes`: the 406 message. The attempted list is
      interpolated as an array, so it is joined with bare commas. */
  function AcceptableRequestTypes(types: seq<string>, attempted: seq<string>): string
  {
    "Invalid Content-Type provided. Acceptable types are: " + Join(types, ", ") + ". You provided: " + Join(attempted, ",") + "."
  }

  /** `t` occurs in `s` from position `k` on. */
  predicate OccursAt(t: string, s: string, k: nat)
  {
    k + |t| <= |s| && s[k..k + |t|] == t
  }

  /** `t` occurs somewhere in `s`. */
  predicate Occurs(t: string, s: string)
  {
    exists k: nat | k <= |s| :: OccursAt(t, s, k)
  }

  /** Every piece occurs in the join of the pieces. */
  lemma {:induction false} OccursInJoin(parts: seq<string>, sep: string, i: nat)
    requires i < |parts|
    ensures Occurs(parts[i], Join(parts, sep))
    decreases |parts|
  {
    var j := Join(parts, sep);
    if i == 0 {
      assert j[0..|parts[0]|] == parts[0];
      assert OccursAt(parts[0], j, 0);
    } else {
      OccursInJoin(parts[1..], sep, i - 1);
      var rest := Join(parts[1..], sep);
      var t := parts[1..][i - 1];
      var k: nat :| k <= |rest| && OccursAt(t, rest, k);
      var front := parts[0] + sep;
      var at := |front| + k;
      assert j == front + rest;
      assert j[at..at + |t|] == rest[k..k + |t|];
      assert OccursAt(t, j, at);
    }
  }

  /** What occurs in the middle part occurs in the whole. */
  lemma OccursAround(t: string, front: string, middle: string, back: string)
    requires Occurs(t, middle)
    ensures Occurs(t, front + middle + back)
  {
    var k: nat :| k <= |middle| && OccursAt(t, middle, k);
    var whole := front + middle + back;
    var at := |front| + k;
    assert whole[at..at + |t|] == middle[k..k + |t|];
    assert OccursAt(t, whole, at);
  }

  /** The 406 message names every acceptable type and every type the request
      offered, and ends with the offered types joined by commas. */
  lemma RefusalNamesTypes(types: seq<string>, attempted: seq<string>)
    ensures forall i :: 0 <= i < |types| ==> Occurs(types[i], AcceptableRequestTypes(types, attempted))
    ensures forall i :: 0 <= i < |attempted| ==> Occurs(attempted[i], AcceptableRequestTypes(types, attempted))
    ensures var tail := Join(attempted, ",") + ".";
      var m := AcceptableRequestTypes(types, attempted);
      |tail| <= |m| && m[|m| - |tail|..] == tail
  {
    var head := "Invalid Content-Type provided. Acceptable types are: ";
    var middle := ". You provided: ";
    forall i | 0 <= i < |types|
      ensures Occurs(types[i], AcceptableRequestTypes(types, attempted))
    {
      OccursInJoin(types, ", ", i);
      OccursAround(types[i], head, Join(types, ", "), middle + Join(attempted, ",") + ".");
      assert head + Join(types, ", ") + (middle + Join(attempted, ",") + ".") == AcceptableRequestTypes(types, attempted);
    }
    forall i | 0 <= i < |attempted|
      ensures Occurs(attempted[i], AcceptableRequestTypes(types, attempted))
    {
      OccursInJoin(attempted, ",", i);
      OccursAround(attempted[i], head + Join(types, ", ") + middle, Join(attempted, ","), ".");
    }
  }

  /** `validateMIME(acceptable)` applied to a request with the given Accept header. */
  function ValidateMime(acceptable: seq<string>, header: Option<string>): (g: Gate)
    ensures g.Next? <==> acceptable == [] || AnyAcceptable(AcceptedTypes(header), acceptable)
    ensures g.Stop? ==> g == Stop(406, AcceptableRequestTypes(acceptable, AcceptedTypes(header)))
  {
    var types := AcceptedTypes(header);
    if !AnyAcceptable(types, acceptable) && |acceptable| > 0 then
      Stop(406, AcceptableRequestTypes(acceptable, types))
    else Next
  }

  /** With no acceptable types (the default) every request passes. */
  lemma EmptyListPasses(header: Option<string>)
    ensures ValidateMime([], header) == Next
  {
  }

  /** A request without an Accept header, or with an empty one, has no types
      and is refused by any route that names acceptable types. */
  lemma MissingHeaderRefused(acceptable: seq<string>, header: Option<string>)
    requires acceptable != []
    requires header.None? || header == Some("")
    ensures AcceptedTypes(header) == []
    ensures ValidateMime(acceptable, header).Stop?
  {
    assert Split("", ',') == [""];
    assert Split("", ';') == [""];
    assert MediaRange("") == "";
  }

  /** A media range that can stand in an Accept list as it is. */
  predicate Clean(t: string)
  {
    t != "" && ',' !in t && ';' !in t && !IsSpace(t[0]) && !IsSpace(t[|t| - 1])
  }

  /** A header listing clean media ranges separated by commas parses back to that list. */
  lemma {:induction false} AcceptedTypesOfList(types: seq<string>)
    requires forall i :: 0 <= i < |types| ==> Clean(types[i])
    ensures AcceptedTypes(Some(Join(types, ","))) == types
  {
    if types == [] {
      MissingHeaderRefused(["*/*"], Some(""));
    } else {
      SplitJoin(types, ',');
      RangesOfClean(types);
    }
  }

  lemma {:induction false} RangesOfClean(types: seq<string>)
    requires forall i :: 0 <= i < |types| ==> Clean(types[i])
    ensures Ranges(types) == types
    decreases |types|
  {
    if types != [] {
      var t := types[0];
      SplitNoSeparator(t, ';');
      TrimClean(t);
      RangesOfClean(types[1..]);
      assert [t] + types[1..] == types;
    }
  }

  /** The wildcard media range lets the request through when it is among the parsed media ranges; one after a `;` is dropped with the parameters. */
  lemma WildcardPasses(acceptable: seq<string>, header: Option<string>)
    requires "*/*" in AcceptedTypes(header)
    ensures ValidateMime(acceptable, header) == Next
  {
    var types := AcceptedTypes(header);
    var i :| 0 <= i < |types| && types[i] == "*/*";
  }
}
