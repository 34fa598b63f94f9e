/** The menu store: which menu entry is selected, and the entry chosen for a route path. */
module MenuStore {
  import opened Common

  /** The second `/`-separated segment of the path, or `dashboard` when it is missing or empty. */
  function MainPath(path: string): (m: string)
    ensures m != [] && '/' !in m
  {
    var parts := Split(path, '/');
    if |parts| >= 2 && parts[1] != "" then parts[1] else "dashboard"
  }

  /** The selected key for a path: the strategy list for `strategies`, otherwise the main path. */
  function MenuKeyForPath(path: string): (key: string)
    ensures MainPath(path) == "strategies" ==> key == "strategy-list"
    ensures MainPath(path) != "strategies" ==> key == MainPath(path)
  {
    var m := MainPath(path);
    if m == "strategies" then "strategy-list" else m
  }

  /** Splitting at a separator after a first piece gives that piece, then the pieces of the rest. */
  lemma {:induction false} SplitAfterPiece(a: string, b: string, sep: char)
    requires sep !in a
    ensures Split(a + [sep] + b, sep) == [a] + Split(b, sep)
  {
    if a == [] {
      assert [sep] + b == [sep] + b;
      assert ([sep] + b)[1..] == b;
    } else {
      assert (a + [sep] + b)[1..] == a[1..] + [sep] + b;
      assert a[0] in a && sep !in a[1..];
      SplitAfterPiece(a[1..], b, sep);
      assert [a[0]] + a[1..] == a;
    }
  }

  /** A route `/<segment>` or `/<segment>/<rest>` selects by its first segment. */
  lemma MainPathOfRoute(segment: string, rest: string)
    requires segment != [] && '/' !in segment
    ensures MainPath("/" + segment) == segment
    ensures MainPath("/" + segment + "/" + rest) == segment
  {
    SplitAfterPiece("", segment, '/');
    assert "" + ['/'] + segment == "/" + segment;
    SplitWithoutSeparator(segment, '/');
    SplitAfterPiece("", segment + "/" + rest, '/');
    assert "" + ['/'] + (segment + "/" + rest) == "/" + segment + "/" + rest;
    SplitAfterPiece(segment, rest, '/');
    assert segment + ['/'] + rest == segment + "/" + rest;
  }

  /** The root path and a path without a separator select the dashboard. */
  lemma RootSelectsDashboard(path: string)
    requires path == "/" || '/' !in path
    ensures MenuKeyForPath(path) == "dashboard"
  {
    if path == "/" {
      SplitAfterPiece("", "", '/');
      assert "" + ['/'] + "" == "/";
    } else {
      SplitWithoutSeparator(path, '/');
    }
  }

  class Menu {
    var selectedKeys: seq<string>

    constructor ()
      ensures selectedKeys == ["dashboard"]
    {
      selectedKeys := ["dashboard"];
    }

    method SetSelectedKeys(keys: seq<string>)
      modifies this
      ensures selectedKeys == keys
    {
      selectedKeys := keys;
    }

    /** Selects exactly one key, derived from the path. */
    method UpdateSelectedKeysByPath(path: string)
      modifies this
      ensures selectedKeys == [MenuKeyForPath(path)]
      ensures |selectedKeys| == 1
    {
      var parts := Split(path, '/');
      var mainPath := if |parts| >= 2 && parts[1] != "" then parts[1] else "dashboard";
      if mainPath == "strategies" {
        selectedKeys := ["strategy-list"];
      } else {
        selectedKeys := [mainPath];
      }
    }
  }
}
