/** Script discovery: `Red2NetApp.load_scripts` and the default selection. */
module Scripts {
  import opened Strings

  /** The extensions `load_scripts` accepts. */
  predicate IsScript(name: string) {
    EndsWith(name, ".py") || EndsWith(name, ".c") || EndsWith(name, ".sh")
  }

  /** The directory entries that are scripts, in directory order. */
  function LoadScripts(listing: seq<string>): (scripts: seq<string>)
    ensures |scripts| <= |listing|
    ensures forall name :: name in scripts <==> name in listing && IsScript(name)
  {
    if listing == [] then []
    else (if IsScript(listing[0]) then [listing[0]] else []) + LoadScripts(listing[1..])
  }

  /** Filtering a listing piecewise gives the same order as filtering it whole. */
  lemma {:induction false} LoadScriptsConcat(a: seq<string>, b: seq<string>)
    ensures LoadScripts(a + b) == LoadScripts(a) + LoadScripts(b)
  {
    if a == [] {
      assert a + b == b;
    } else {
      assert (a + b)[0] == a[0];
      assert (a + b)[1..] == a[1..] + b;
      LoadScriptsConcat(a[1..], b);
    }
  }

  /** Every script entry is kept as often as it is listed; every other entry is dropped. */
  lemma {:induction false} LoadScriptsCount(listing: seq<string>)
    ensures forall name :: multiset(LoadScripts(listing))[name] ==
                           if IsScript(name) then multiset(listing)[name] else 0
  {
    if listing != [] {
      LoadScriptsCount(listing[1..]);
      assert listing == [listing[0]] + listing[1..];
      assert multiset(listing) == multiset([listing[0]]) + multiset(listing[1..]);
    }
  }

  /** The default selection `scripts[0]` is the first directory entry that is a script. */
  lemma {:induction false} DefaultIsFirstScript(listing: seq<string>)
    requires LoadScripts(listing) != []
    ensures IsScript(LoadScripts(listing)[0])
    ensures exists i :: 0 <= i < |listing| && listing[i] == LoadScripts(listing)[0] &&
                        forall j :: 0 <= j < i ==> !IsScript(listing[j])
  {
    if IsScript(listing[0]) {
      assert listing[0] == LoadScripts(listing)[0];
    } else {
      assert LoadScripts(listing) == LoadScripts(listing[1..]);
      DefaultIsFirstScript(listing[1..]);
      var i :| 0 <= i < |listing[1..]| && listing[1..][i] == LoadScripts(listing[1..])[0] &&
               forall j :: 0 <= j < i ==> !IsScript(listing[1..][j]);
      assert listing[i + 1] == LoadScripts(listing)[0];
      assert forall j :: 0 <= j < i + 1 ==> !IsScript(listing[j]) by {
        forall j | 0 <= j < i + 1 ensures !IsScript(listing[j]) {
          if j > 0 { assert listing[j] == listing[1..][j - 1]; }
        }
      }
    }
  }
}
