/** The sidebar's navigation list and the rule that highlights the current item. */
module Sidebar {

  /** A navigation entry: its label and the path it links to. */
  datatype NavItem = NavItem(name: string, path: string)

  const ReportsPath := "/reports"

  /** The five entries of the menu, in display order. */
  const NavItems := [
    NavItem("Dashboard", "/dashboard"),
    NavItem("Analyze New Report", "/analyze"),
    NavItem("My Saved Reports", ReportsPath),
    NavItem("Settings", "/settings"),
    NavItem("Profile", "/profile")
  ]

  /**
   * `isActive(path)` for the current `location.pathname`: the saved-reports
   * entry also covers every path below it, each other entry only its own path.
   */
  predicate IsActive(pathname: string, path: string)
  {
    if path == ReportsPath then pathname == ReportsPath || "/reports/" <= pathname
    else pathname == path
  }

  /** The saved-reports entry is active exactly on "/reports" and the paths under "/reports/". */
  lemma ReportsActiveIff(pathname: string)
    ensures IsActive(pathname, ReportsPath) <==>
            exists rest :: pathname == ReportsPath + rest && (rest == "" || rest[0] == '/')
  {
    if IsActive(pathname, ReportsPath) {
      var rest := pathname[|ReportsPath|..];
      assert pathname == ReportsPath + rest;
    }
    if exists rest :: pathname == ReportsPath + rest && (rest == "" || rest[0] == '/') {
      var rest :| pathname == ReportsPath + rest && (rest == "" || rest[0] == '/');
      if rest != "" {
        assert pathname[..9] == "/reports/";
      }
    }
  }

  /** A report's detail page keeps the saved-reports entry highlighted. */
  lemma ReportDetailActivatesReports(id: string)
    ensures IsActive("/reports/" + id, ReportsPath)
  {
    assert ("/reports/" + id)[..9] == "/reports/";
  }

  /** Every other entry matches its own path exactly. */
  lemma OtherItemsExact(pathname: string, i: int)
    requires 0 <= i < |NavItems| && NavItems[i].path != ReportsPath
    ensures IsActive(pathname, NavItems[i].path) <==> pathname == NavItems[i].path
  {
  }

  /** "/reportsX" does not highlight the saved-reports entry, and "/dashboard/x" highlights nothing. */
  lemma PrefixEdgeCases()
    ensures !IsActive("/reportsX", ReportsPath)
    ensures forall i :: 0 <= i < |NavItems| ==> !IsActive("/dashboard/x", NavItems[i].path)
  {
    assert !("/reports/" <= "/reportsX") by {
      assert "/reportsX"[8] != '/';
    }
    assert !("/reports/" <= "/dashboard/x") by {
      assert "/dashboard/x"[1] != 'r';
    }
  }

  /** Five entries, the saved-reports one third, with pairwise different paths. */
  lemma NavPathsDistinct()
    ensures |NavItems| == 5 && NavItems[2].path == ReportsPath
    ensures forall i, j :: 0 <= i < j < |NavItems| ==> NavItems[i].path != NavItems[j].path
  {
  }

  /** For any pathname at most one entry is highlighted. */
  lemma AtMostOneActive(pathname: string, i: int, j: int)
    requires 0 <= i < j < |NavItems|
    ensures !(IsActive(pathname, NavItems[i].path) && IsActive(pathname, NavItems[j].path))
  {
    if "/reports/" <= pathname {
      assert pathname[1] == 'r' && pathname[2] == 'e';
    }
  }
}
