/**
 The capability probe of the installer: `is_func_disabled` reads PHP's
 `disable_functions` setting, a comma-separated list of function names, and
 answers whether a given function name is on it.

 The setting is split with the semantics of PHP's `explode`: pieces are not
 trimmed, empty pieces are kept, and the result always holds at least one
 piece. A falsy setting (the empty string, or "0") stands for the empty list.
 Membership is PHP's strict `in_array`, i.e. exact string equality.
 */
module Probe {

  /** PHP's `explode(sep, s)` for a one-character separator. */
  function Explode(sep: char, s: string): (pieces: seq<string>)
    ensures |pieces| >= 1
    ensures forall i :: 0 <= i < |pieces| ==> sep !in pieces[i]
    decreases |s|
  {
    if |s| == 0 then [""]
    else
      var rest := Explode(sep, s[1..]);
      if s[0] == sep then [""] + rest
      else [[s[0]] + rest[0]] + rest[1..]
  }

  /** PHP's `implode(sep, pieces)`: the pieces with one separator between neighbours. */
  function Join(sep: char, pieces: seq<string>): string
    requires |pieces| >= 1
    decreases |pieces|
  {
    if |pieces| == 1 then pieces[0]
    else pieces[0] + [sep] + Join(sep, pieces[1..])
  }

  /** No piece of the list contains the separator. */
  predicate SeparatorFree(sep: char, pieces: seq<string>)
  {
    forall i :: 0 <= i < |pieces| ==> sep !in pieces[i]
  }

  /** Joining the pieces of a split gives back the original string. */
  lemma {:induction false} JoinExplode(sep: char, s: string)
    ensures Join(sep, Explode(sep, s)) == s
    decreases |s|
  {
    if |s| == 0 {
    } else {
      var rest := Explode(sep, s[1..]);
      JoinExplode(sep, s[1..]);
      assert Join(sep, rest) == s[1..];
      if s[0] == sep {
        assert Explode(sep, s) == [""] + rest;
        assert ([""] + rest)[1..] == rest;
        assert s == [sep] + s[1..];
      } else {
        var pieces := [[s[0]] + rest[0]] + rest[1..];
        assert Explode(sep, s) == pieces;
        if |rest| == 1 {
          assert Join(sep, pieces) == [s[0]] + rest[0];
        } else {
          assert pieces[1..] == rest[1..];
          assert Join(sep, rest) == rest[0] + [sep] + Join(sep, rest[1..]);
        }
        assert s == [s[0]] + s[1..];
      }
    }
  }

  /** Splitting a string that begins with a separator-free prefix `p`:
      the prefix glues onto the first piece of the rest. */
  lemma {:induction false} ExplodePrefix(sep: char, p: string, t: string)
    requires sep !in p
    ensures Explode(sep, p + t) == [p + Explode(sep, t)[0]] + Explode(sep, t)[1..]
    decreases |p|
  {
    if |p| == 0 {
      assert p + t == t;
      var e := Explode(sep, t);
      assert p + e[0] == e[0];
      assert e == [e[0]] + e[1..];
    } else {
      var s := p + t;
      assert s[0] == p[0];
      assert s[1..] == p[1..] + t;
      ExplodePrefix(sep, p[1..], t);
      var e := Explode(sep, t);
      var rest := Explode(sep, s[1..]);
      assert rest == [p[1..] + e[0]] + e[1..];
      assert Explode(sep, s) == [[p[0]] + rest[0]] + rest[1..];
      assert [p[0]] + (p[1..] + e[0]) == p + e[0];
    }
  }

  /** The other round trip: splitting a join of separator-free pieces gives
      back exactly those pieces, so a split is the only such decomposition. */
  lemma {:induction false} ExplodeJoin(sep: char, pieces: seq<string>)
    requires |pieces| >= 1
    requires SeparatorFree(sep, pieces)
    ensures Explode(sep, Join(sep, pieces)) == pieces
    decreases |pieces|
  {
    var p := pieces[0];
    assert sep !in p;
    if |pieces| == 1 {
      ExplodePrefix(sep, p, "");
      assert p + "" == p;
      assert Explode(sep, "") == [""];
      assert [p + ""] + [""][1..] == [p];
    } else {
      var tail := pieces[1..];
      assert SeparatorFree(sep, tail) by {
        forall i | 0 <= i < |tail| ensures sep !in tail[i] {
          assert tail[i] == pieces[i + 1];
        }
      }
      ExplodeJoin(sep, tail);
      var t := [sep] + Join(sep, tail);
      assert Join(sep, pieces) == p + t;
      ExplodePrefix(sep, p, t);
      assert t[0] == sep && t[1..] == Join(sep, tail);
      assert Explode(sep, t) == [""] + tail;
      assert ([""] + tail)[0] == "" && ([""] + tail)[1..] == tail;
      assert p + "" == p;
      assert pieces == [p] + tail;
    }
  }

  /** PHP falsiness of a string-valued ini setting. */
  predicate IsFalsy(value: string)
  {
    value == "" || value == "0"
  }

  /** The disabled-function list read from the `disable_functions` setting. */
  function DisabledList(config: string): (names: seq<string>)
    ensures IsFalsy(config) ==> names == []
    ensures !IsFalsy(config) ==> |names| >= 1 && Join(',', names) == config
    ensures SeparatorFree(',', names)
  {
    if IsFalsy(config) then []
    else
      JoinExplode(',', config);
      Explode(',', config)
  }

  /** `is_func_disabled(name)` against the setting `config`. */
  function IsFuncDisabled(config: string, name: string): (disabled: bool)
    ensures IsFalsy(config) ==> !disabled
    ensures ',' in name ==> !disabled
  {
    name in DisabledList(config)
  }

  /** The probe against an independent description of the setting: whenever
      the setting is the comma-join of separator-free names, a function is
      disabled exactly when its name is one of them. */
  lemma DisabledIffListed(config: string, listed: seq<string>, name: string)
    requires !IsFalsy(config)
    requires |listed| >= 1 && SeparatorFree(',', listed)
    requires Join(',', listed) == config
    ensures IsFuncDisabled(config, name) <==> name in listed
  {
    ExplodeJoin(',', listed);
  }

  /** Worked cases of the probe: an empty setting, a listed name, an unlisted
      name, a name behind a space, which is not trimmed, and the setting
      "0", which PHP treats as false. */
  lemma ProbeExamples()
    ensures !IsFuncDisabled("", "x")
    ensures IsFuncDisabled("a,x,b", "x")
    ensures !IsFuncDisabled("a,b", "x")
    ensures !IsFuncDisabled("a, x", "x")
    ensures IsFuncDisabled("a, x", " x")
    ensures !IsFuncDisabled("0", "0")
  {
    assert Join(',', ["a", "x", "b"]) == "a,x,b";
    DisabledIffListed("a,x,b", ["a", "x", "b"], "x");
    assert Join(',', ["a", "b"]) == "a,b";
    DisabledIffListed("a,b", ["a", "b"], "x");
    assert Join(',', ["a", " x"]) == "a, x";
    DisabledIffListed("a, x", ["a", " x"], "x");
    DisabledIffListed("a, x", ["a", " x"], " x");
  }
}
