/** The request middleware: a constant list of public path entries, a prefix test
    per entry, and a response that is the same pass-through in every case. */
module Middleware {

  /** The six public entries, in declaration order. */
  const PublicPaths: seq<string> := ["/", "/onboarding", "/login", "/sign-in", "/sign-up", "/api/public"]

  datatype Response = Next | Redirect(location: string)

  predicate StartsWith(s: string, prefix: string) {
    |prefix| <= |s| && s[..|prefix|] == prefix
  }

  /** The test one entry applies: equal to it, or it followed by `/` or `?`. */
  predicate Matches(path: string, entry: string) {
    path == entry || StartsWith(path, entry + "/") || StartsWith(path, entry + "?")
  }

  /** The loop over `entries`, returning on the first entry that matches. */
  function ScanPublic(path: string, entries: seq<string>): (r: bool)
    ensures r <==> exists j :: 0 <= j < |entries| && Matches(path, entries[j])
  {
    if entries == [] then false
    else if Matches(path, entries[0]) then true
    else ScanPublic(path, entries[1..])
  }

  /** The middleware's test against its own list. */
  function IsPublic(path: string): (r: bool)
    ensures r <==> exists j :: 0 <= j < |PublicPaths| && Matches(path, PublicPaths[j])
  {
    ScanPublic(path, PublicPaths)
  }

  /** The middleware itself: public or not, the request is passed through. */
  function Handle(path: string): (r: Response)
    ensures r == Next
  {
    if IsPublic(path) then Next else Next
  }

  /** Every entry of the list admits itself. */
  lemma ExactEntryIsPublic(path: string)
    requires path in PublicPaths
    ensures IsPublic(path)
  {
    var j :| 0 <= j < |PublicPaths| && PublicPaths[j] == path;
    assert Matches(path, PublicPaths[j]);
  }

  lemma StartsWithConcat(a: string, b: string)
    ensures StartsWith(a + b, a)
  {
    assert (a + b)[..|a|] == a;
  }

  /** An entry followed by `/` or `?` and anything at all is public. */
  lemma ExtensionIsPublic(entry: string, sep: char, rest: string)
    requires entry in PublicPaths
    requires sep == '/' || sep == '?'
    ensures IsPublic(entry + [sep] + rest)
  {
    var j :| 0 <= j < |PublicPaths| && PublicPaths[j] == entry;
    StartsWithConcat(entry + [sep], rest);
    assert Matches(entry + [sep] + rest, PublicPaths[j]);
  }

  /** The outcome depends only on which entries are listed, not on their order
      or repetition: every match yields the same result. */
  lemma {:induction false} OrderIndependent(path: string, e1: seq<string>, e2: seq<string>)
    requires forall x :: x in e1 <==> x in e2
    ensures ScanPublic(path, e1) == ScanPublic(path, e2)
  {
    if ScanPublic(path, e1) {
      var j :| 0 <= j < |e1| && Matches(path, e1[j]);
      assert e1[j] in e1;
      assert e1[j] in e2;
      var k :| 0 <= k < |e2| && e2[k] == e1[j];
      assert Matches(path, e2[k]);
    }
    if ScanPublic(path, e2) {
      var j :| 0 <= j < |e2| && Matches(path, e2[j]);
      assert e2[j] in e2;
      assert e2[j] in e1;
      var k :| 0 <= k < |e1| && e1[k] == e2[j];
      assert Matches(path, e1[k]);
    }
  }

  /** Every entry starts with `/`, so a path that does not is never public. */
  lemma NoLeadingSlashNotPublic(path: string)
    requires |path| == 0 || path[0] != '/'
    ensures !IsPublic(path)
  {
    forall j | 0 <= j < |PublicPaths|
      ensures !Matches(path, PublicPaths[j])
    {
      var e := PublicPaths[j];
      assert e[0] == '/';
      assert (e + "/")[0] == '/' && (e + "?")[0] == '/';
    }
  }

  /** The root entry admits exactly `/` and the paths beginning `//` or `/?`. */
  lemma RootEntryAdmits(path: string)
    ensures Matches(path, "/") <==> path == "/" || StartsWith(path, "//") || StartsWith(path, "/?")
  {
    assert "/" + "/" == "//" && "/" + "?" == "/?";
  }

  /** A path whose second character is neither a separator nor the start of any
      other entry is not public: the root entry does not admit `/dashboard` or
      `/extension`. */
  lemma RootDoesNotAdmitOthers(path: string)
    requires |path| >= 2 && path[0] == '/'
    requires path[1] !in {'/', '?', 'o', 'l', 's', 'a'}
    ensures !IsPublic(path)
  {
    forall j | 0 <= j < |PublicPaths|
      ensures !Matches(path, PublicPaths[j])
    {
      var e := PublicPaths[j];
      if j == 0 {
        assert path != e;
        assert ("/" + "/")[1] == '/' && ("/" + "?")[1] == '?';
      } else {
        assert |e| >= 2 && e[1] in {'o', 'l', 's', 'a'};
        assert path != e;
        assert (e + "/")[1] == e[1] && (e + "?")[1] == e[1];
      }
    }
  }

  lemma DashboardIsProtected()
    ensures !IsPublic("/dashboard") && !IsPublic("/extension")
  {
    RootDoesNotAdmitOthers("/dashboard");
    RootDoesNotAdmitOthers("/extension");
  }

  /** A path that differs from an entry at position `i`, where position
      `|entry|` is where a separator would have to stand, does not match it. */
  lemma DiffersAt(path: string, entry: string, i: nat)
    requires i < |path| && i <= |entry|
    requires i < |entry| ==> path[i] != entry[i]
    requires i == |entry| ==> path[i] != '/' && path[i] != '?'
    ensures !Matches(path, entry)
  {
    if |entry| + 1 <= |path| {
      assert path[..|entry| + 1][i] != (entry + "/")[i];
      assert path[..|entry| + 1][i] != (entry + "?")[i];
    }
  }

  /** A bare prefix without a separator is not admitted. */
  lemma BarePrefixNotPublic()
    ensures !IsPublic("/loginx") && !IsPublic("/api/publicity")
  {
    var p := "/loginx";
    forall j | 0 <= j < |PublicPaths| ensures !Matches(p, PublicPaths[j]) {
      if j == 0 {
        DiffersAt(p, PublicPaths[j], 1);
      } else if j == 2 {
        DiffersAt(p, PublicPaths[j], 6);
      } else {
        DiffersAt(p, PublicPaths[j], 1);
      }
    }
    var q := "/api/publicity";
    forall j | 0 <= j < |PublicPaths| ensures !Matches(q, PublicPaths[j]) {
      if j == 5 {
        DiffersAt(q, PublicPaths[j], 11);
      } else {
        DiffersAt(q, PublicPaths[j], 1);
      }
    }
  }
}
