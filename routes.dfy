/** The application's route table: which screen an address shows. */
module Routes {

  /** The screens of the checkout flow, and the catch-all page. */
  datatype Screen = Landing | Redirect | OtpEntry | Success | Failure | NotFound

  const RootPath: string := "/"
  const RedirectPath: string := "/redirect"
  const OtpAuthPath: string := "/otp-auth"
  const SuccessPath: string := "/success"
  const FailurePath: string := "/failure"

  /** The declared routes in declaration order; every other address falls
      through to the catch-all `*` route. */
  const Table: seq<(string, Screen)> :=
    [(RootPath, Landing), (RedirectPath, Redirect), (OtpAuthPath, OtpEntry),
     (SuccessPath, Success), (FailurePath, Failure)]

  function Paths(t: seq<(string, Screen)>): (ps: set<string>)
    ensures forall i :: 0 <= i < |t| ==> t[i].0 in ps
    ensures forall p :: p in ps ==> exists i :: 0 <= i < |t| && t[i].0 == p
  {
    if t == [] then {} else {t[0].0} + Paths(t[1..])
  }

  /** No declared route shows the catch-all page. */
  predicate DeclaresScreens(t: seq<(string, Screen)>) {
    forall i :: 0 <= i < |t| ==> t[i].1 != NotFound
  }

  /** No address is declared twice. */
  predicate DistinctPaths(t: seq<(string, Screen)>) {
    forall i, j :: 0 <= i < j < |t| ==> t[i].0 != t[j].0
  }

  /** First-match lookup with the catch-all as fallback. */
  function Lookup(t: seq<(string, Screen)>, path: string): (sc: Screen)
    ensures sc == NotFound || exists i :: 0 <= i < |t| && t[i] == (path, sc)
    ensures DeclaresScreens(t) ==> (sc != NotFound <==> path in Paths(t))
  {
    if t == [] then NotFound
    else if t[0].0 == path then t[0].1
    else Lookup(t[1..], path)
  }

  /** The screen the router shows for an address: a declared static path
      wins over the catch-all `*`. */
  function Resolve(path: string): Screen {
    if path == RootPath then Landing
    else if path == RedirectPath then Redirect
    else if path == OtpAuthPath then OtpEntry
    else if path == SuccessPath then Success
    else if path == FailurePath then Failure
    else NotFound
  }

  /** The router's choice agrees with a first-match lookup in the table:
      an address shows a flow screen exactly when it is declared, and then
      the screen it is declared with. */
  lemma ResolveIsTableLookup(path: string)
    ensures Resolve(path) == Lookup(Table, path)
    ensures Resolve(path) != NotFound <==> path in Paths(Table)
    ensures Resolve(path) != NotFound ==> (path, Resolve(path)) in Table
  {
    var t4 := [(FailurePath, Failure)];
    var t3 := [(SuccessPath, Success)] + t4;
    var t2 := [(OtpAuthPath, OtpEntry)] + t3;
    var t1 := [(RedirectPath, Redirect)] + t2;
    assert Table == [(RootPath, Landing)] + t1;
    assert Lookup(t4, path) == if path == FailurePath then Failure else NotFound by {
      assert t4[1..] == [];
    }
    assert Lookup(t3, path) == if path == SuccessPath then Success else Lookup(t4, path) by {
      assert t3[1..] == t4;
    }
    assert Lookup(t2, path) == if path == OtpAuthPath then OtpEntry else Lookup(t3, path) by {
      assert t2[1..] == t3;
    }
    assert Lookup(t1, path) == if path == RedirectPath then Redirect else Lookup(t2, path) by {
      assert t1[1..] == t2;
    }
    assert Table[1..] == t1;
    TableIsWellFormed();
  }

  /** With distinct paths, looking up a declared path finds its own entry. */
  lemma {:induction false} LookupEntry(t: seq<(string, Screen)>, i: nat)
    requires DistinctPaths(t) && i < |t|
    ensures Lookup(t, t[i].0) == t[i].1
    decreases i
  {
    if i > 0 {
      assert t[0].0 != t[i].0;
      assert t[1..][i - 1] == t[i];
      LookupEntry(t[1..], i - 1);
    }
  }

  lemma TableIsWellFormed()
    ensures DistinctPaths(Table) && DeclaresScreens(Table)
  {
  }

  /** Each declared path resolves to the screen it is declared with. */
  lemma ResolveTable(i: nat)
    requires i < |Table|
    ensures Resolve(Table[i].0) == Table[i].1
  {
    TableIsWellFormed();
    LookupEntry(Table, i);
    ResolveIsTableLookup(Table[i].0);
  }

  /** The five routes of the application, one by one. */
  lemma ResolveDeclaredRoutes()
    ensures Resolve(RootPath) == Landing
    ensures Resolve(RedirectPath) == Redirect
    ensures Resolve(OtpAuthPath) == OtpEntry
    ensures Resolve(SuccessPath) == Success
    ensures Resolve(FailurePath) == Failure
  {
    ResolveTable(0);
    ResolveTable(1);
    ResolveTable(2);
    ResolveTable(3);
    ResolveTable(4);
    assert Table[2].0 == OtpAuthPath;
  }

  /** The five addresses are exactly the declared ones. */
  lemma DeclaredPaths()
    ensures Paths(Table) == {RootPath, RedirectPath, OtpAuthPath, SuccessPath, FailurePath}
  {
    var declared := {RootPath, RedirectPath, OtpAuthPath, SuccessPath, FailurePath};
    assert Table[0].0 == RootPath && Table[1].0 == RedirectPath && Table[2].0 == OtpAuthPath;
    assert Table[3].0 == SuccessPath && Table[4].0 == FailurePath;
    forall p | p in Paths(Table) ensures p in declared {
      var i :| 0 <= i < |Table| && Table[i].0 == p;
    }
  }

  /** The address of a screen of the flow; its inverse is `Resolve`. */
  function PathOf(sc: Screen): (p: string)
    requires sc != NotFound
    ensures (p, sc) in Table && Resolve(p) == sc
  {
    ResolveDeclaredRoutes();
    match sc
    case Landing => RootPath
    case Redirect => RedirectPath
    case OtpEntry => OtpAuthPath
    case Success => SuccessPath
    case Failure => FailurePath
  }

  /** Every screen of the flow has exactly one address: two addresses that
      show the same flow screen are the same address, the screen's own. */
  lemma AddressesAreUnique(p: string, q: string)
    requires Resolve(p) != NotFound && Resolve(p) == Resolve(q)
    ensures p == q && p == PathOf(Resolve(p))
  {
  }
}
