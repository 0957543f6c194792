/** The hash router of the single-page application: `#/list`, `#/new` and
    `#/edit/<id>`. */
module Router {
  import opened Seqs
  import opened Text

  /** The three views the routes table can show. */
  datatype Route = ListView | NewForm | EditForm(id: string)

  function NonEmpty(): string -> bool {
    (p: string) => p != ""
  }

  /** `hash.replace("#", "").split("/").filter(Boolean)`: the non-empty
      segments of the path after the first `#`. */
  function Segments(hash: string): (r: seq<string>)
    ensures forall k :: 0 <= k < |r| ==> r[k] != "" && '/' !in r[k]
  {
    var parts := Split(RemoveFirst(hash, '#'), '/');
    var r := Filter(parts, NonEmpty());
    assert forall k :: 0 <= k < |r| ==> r[k] in parts by {
      forall k | 0 <= k < |r| ensures r[k] in parts {
        FilterMembership(parts, NonEmpty(), r[k]);
      }
    }
    r
  }

  /** The routes table and `handleRoute`'s dispatch: `edit` with an id opens
      that record; a first segment naming a route opens it, and `/edit`
      without an id is called with no id, which is the create form; anything
      else opens the list. */
  function Dispatch(parts: seq<string>): Route {
    if |parts| >= 2 && parts[0] == "edit" && parts[1] != "" then EditForm(parts[1])
    else if |parts| >= 1 && parts[0] == "list" then ListView
    else if |parts| >= 1 && (parts[0] == "new" || parts[0] == "edit") then NewForm
    else ListView
  }

  /** `handleRoute`: a missing hash stands for `#/list`. */
  function ParseRoute(hash: string): Route {
    Dispatch(Segments(if hash == "" then "#/list" else hash))
  }

  /** The segments of `#` followed by pieces joined with `/` are the
      non-empty pieces: empty segments, as in `#//list`, are dropped. */
  lemma SegmentsOfPath(parts: seq<string>)
    requires |parts| >= 1
    requires forall k :: 0 <= k < |parts| ==> '/' !in parts[k]
    ensures Segments("#" + Join(parts, '/')) == Filter(parts, NonEmpty())
  {
    var h := "#" + Join(parts, '/');
    assert RemoveFirst(h, '#') == Join(parts, '/') by {
      assert h[0] == '#' && h[1..] == Join(parts, '/');
    }
    SplitJoin(parts, '/');
  }

  /** The segments of `#` followed by `t` are the non-empty pieces of `t`. */
  lemma SegmentsAfterHash(t: string)
    ensures Segments("#" + t) == Filter(Split(t, '/'), NonEmpty())
  {
    var h := "#" + t;
    assert h[0] == '#' && h[1..] == t;
  }

  lemma SplitLeadingSlash(t: string)
    ensures Split("/" + t, '/') == [""] + Split(t, '/')
  {
    assert ("/" + t)[0] == '/' && ("/" + t)[1..] == t;
  }

  lemma FilterSkipsEmpty(t: seq<string>)
    ensures Filter([""] + t, NonEmpty()) == Filter(t, NonEmpty())
  {
    assert ([""] + t)[1..] == t;
  }

  lemma FilterKeepsPiece(a: string, t: seq<string>)
    requires a != ""
    ensures Filter([a] + t, NonEmpty()) == [a] + Filter(t, NonEmpty())
  {
    assert ([a] + t)[1..] == t;
  }

  /** A path of one named segment. */
  lemma SegmentsOfNamed(first: string)
    requires first != "" && '/' !in first
    ensures Segments("#/" + first) == [first]
  {
    assert "#/" + first == "#" + ("/" + first);
    SegmentsAfterHash("/" + first);
    SplitLeadingSlash(first);
    SplitNoSeparator(first, '/');
    FilterSkipsEmpty([first]);
    FilterKeepsPiece(first, []);
    assert [first] + [] == [first];
  }

  /** A path that starts with a named segment followed by more. */
  lemma SegmentsOfNamedThen(first: string, rest: string)
    requires first != "" && '/' !in first
    ensures Segments("#/" + first + "/" + rest) == [first] + Filter(Split(rest, '/'), NonEmpty())
  {
    var t := first + "/" + rest;
    assert "#/" + first + "/" + rest == "#" + ("/" + t);
    SegmentsAfterHash("/" + t);
    SplitLeadingSlash(t);
    SplitPieceFirst(first, '/', rest);
    FilterSkipsEmpty(Split(t, '/'));
    FilterKeepsPiece(first, Split(rest, '/'));
  }

  /** A path of one segment opens the route that segment names, the
      create form for `edit` (no id follows), and the list for a name that
      is not in the routes table. */
  lemma SingleSegmentRoute(first: string)
    requires first != "" && '/' !in first
    ensures ParseRoute("#/" + first) ==
      if first == "new" || first == "edit" then NewForm else ListView
  {
    SegmentsOfNamed(first);
  }

  /** The concrete fixed routes; an empty hash stands for the list. */
  lemma FixedRoutes()
    ensures ParseRoute("") == ListView
    ensures ParseRoute("#/list") == ListView
    ensures ParseRoute("#/new") == NewForm
    ensures ParseRoute("#/edit") == NewForm
  {
    ListRoute();
    NewRoute();
    EditRouteWithoutId();
  }

  /** The `#/list` case of `FixedRoutes`. */
  lemma ListRoute()
    ensures ParseRoute("#/list") == ListView
  {
    SingleSegmentRoute("list");
    assert "#/" + "list" == "#/list";
  }

  /** The `#/new` case of `FixedRoutes`. */
  lemma NewRoute()
    ensures ParseRoute("#/new") == NewForm
  {
    SingleSegmentRoute("new");
    assert "#/" + "new" == "#/new";
  }

  /** The `#/edit` case of `FixedRoutes`. */
  lemma EditRouteWithoutId()
    ensures ParseRoute("#/edit") == NewForm
  {
    SingleSegmentRoute("edit");
    assert "#/" + "edit" == "#/edit";
  }

  /** Empty segments are dropped: `#//list` and `#/edit/` behave like
      `#/list` and `#/edit`. */
  lemma EmptySegmentRoutes()
    ensures ParseRoute("#//list") == ListView
    ensures ParseRoute("#/edit/") == NewForm
  {
    EmptySegmentList();
    EditRouteWithoutIdSlash();
  }

  /** The `#//list` case of `EmptySegmentRoutes`. */
  lemma EmptySegmentList()
    ensures ParseRoute("#//list") == ListView
  {
    assert Segments("#//list") == Segments("#/list") by {
      EmptySegmentDropped("list");
      assert "#//" + "list" == "#//list";
      assert "#/" + "list" == "#/list";
    }
    ListRoute();
  }

  /** A doubled slash after the hash routes like a single one. */
  lemma EmptySegmentDropped(t: string)
    ensures Segments("#//" + t) == Segments("#/" + t)
  {
    var u := "/" + t;
    assert Segments("#//" + t) == Filter(Split("/" + u, '/'), NonEmpty()) by {
      assert "#//" + t == "#" + ("/" + u);
      SegmentsAfterHash("/" + u);
    }
    assert Segments("#/" + t) == Filter(Split(u, '/'), NonEmpty()) by {
      assert "#/" + t == "#" + u;
      SegmentsAfterHash(u);
    }
    SplitLeadingSlash(u);
    FilterSkipsEmpty(Split(u, '/'));
  }

  /** The `#/edit/` case of `EmptySegmentRoutes`. */
  lemma EditRouteWithoutIdSlash()
    ensures ParseRoute("#/edit/") == NewForm
  {
    assert Segments("#/edit/") == ["edit"] by {
      SegmentsOfEdit("");
      assert "#/edit/" + "" == "#/edit/";
      assert Split("", '/') == [""];
      FilterSkipsEmpty([]);
    }
  }

  /** `#/edit/<id>` opens the record `id`; segments after it are ignored. */
  lemma EditRoute(id: string, rest: string)
    requires id != "" && '/' !in id
    ensures ParseRoute("#/edit/" + id) == EditForm(id)
    ensures ParseRoute("#/edit/" + (id + "/" + rest)) == EditForm(id)
  {
    EditRouteAlone(id);
    EditRouteThen(id, rest);
  }

  /** The first case of `EditRoute`. */
  lemma EditRouteAlone(id: string)
    requires id != "" && '/' !in id
    ensures ParseRoute("#/edit/" + id) == EditForm(id)
  {
    SegmentsOfEdit(id);
    SplitNoSeparator(id, '/');
    FilterKeepsPiece(id, []);
  }

  /** The second case of `EditRoute`. */
  lemma EditRouteThen(id: string, rest: string)
    requires id != "" && '/' !in id
    ensures ParseRoute("#/edit/" + (id + "/" + rest)) == EditForm(id)
  {
    SegmentsOfEdit(id + "/" + rest);
    SplitPieceFirst(id, '/', rest);
    FilterKeepsPiece(id, Split(rest, '/'));
  }

  /** The segments of an edit path. */
  lemma SegmentsOfEdit(t: string)
    ensures Segments("#/edit/" + t) == ["edit"] + Filter(Split(t, '/'), NonEmpty())
  {
    SegmentsOfNamedThen("edit", t);
    assert "#/" + "edit" + "/" == "#/edit/";
  }

  /** A first segment that names no route opens the list. */
  lemma UnknownRoute(first: string, rest: string)
    requires first != "" && '/' !in first
    requires first != "list" && first != "new" && first != "edit"
    ensures ParseRoute("#/" + first) == ListView
    ensures ParseRoute("#/" + first + "/" + rest) == ListView
  {
    SegmentsOfNamed(first);
    SegmentsOfNamedThen(first, rest);
  }
}
