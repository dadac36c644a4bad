/** What it means that later settings override earlier ones. */
module Layers {
  import opened Text

  /** What each layer sets in one field. */
  function Settings<L, T>(layers: seq<L>, field: L -> Option<T>): (r: seq<Option<T>>)
    ensures |r| == |layers| && forall i :: 0 <= i < |r| ==> r[i] == field(layers[i])
  {
    seq(|layers|, i requires 0 <= i < |layers| => field(layers[i]))
  }

  /** The last setting that is set. */
  function Last<T>(settings: seq<Option<T>>): Option<T> {
    if settings == [] then None
    else if settings[|settings| - 1].Some? then settings[|settings| - 1]
    else Last(settings[..|settings| - 1])
  }

  /** It is unset exactly if all are; otherwise it is one of them, after which none is set. */
  lemma {:induction false} LastMeans<T(!new)>(settings: seq<Option<T>>, v: Option<T>)
    ensures Last(settings) == v <==>
      if v.None? then forall i :: 0 <= i < |settings| ==> settings[i].None?
      else exists i :: 0 <= i < |settings| && settings[i] == v && forall j :: i < j < |settings| ==> settings[j].None?
  {
    if settings != [] {
      var front, last := settings[..|settings| - 1], settings[|settings| - 1];
      LastMeans(front, v);
      assert forall i :: 0 <= i < |front| ==> front[i] == settings[i];
      if last.Some? {
        if v == last {
          assert settings[|settings| - 1] == v;
        }
      } else if v.Some? && Last(front) == v {
        var i :| 0 <= i < |front| && front[i] == v && forall j :: i < j < |front| ==> front[j].None?;
        assert settings[i] == v;
      }
    }
  }

  lemma LastNext<T>(settings: seq<Option<T>>, s: Option<T>)
    ensures Last(settings + [s]) == if s.Some? then s else Last(settings)
  {
    assert (settings + [s])[..|settings|] == settings;
  }

  lemma {:induction false} LastAppend<T>(a: seq<Option<T>>, b: seq<Option<T>>)
    ensures Last(a + b) == if Last(b).Some? then Last(b) else Last(a)
  {
    if b == [] {
      assert a + b == a;
    } else {
      var front, s := b[..|b| - 1], b[|b| - 1];
      LastAppend(a, front);
      LastNext(a + front, s);
      assert a + b == (a + front) + [s];
    }
  }
}
