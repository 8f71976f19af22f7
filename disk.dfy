/**
 * What the clean steps of a trace do to the disk: a world is the set of
 * paths that exist and the set of downloads kept in the download cache.
 * Deleting a directory removes every path under it; deleting a file removes
 * that path; cleaning a download forgets the cached archive.
 */
module Disk {
  import opened Common

  datatype World = World(entries: set<Path>, downloads: set<Url>)

  /** The actions a clean request is made of. */
  predicate IsCleanStep(a: Action)
  {
    a.DeleteDir? || a.DeleteFile? || a.CleanDownload?
  }

  /** A clean step that cannot fail: every delete is optional. */
  predicate IsBestEffort(a: Action)
  {
    IsCleanStep(a) && ((a.DeleteDir? || a.DeleteFile?) ==> a.optional)
  }

  predicate AllBestEffort(t: seq<Action>)
  {
    forall i :: 0 <= i < |t| ==> IsBestEffort(t[i])
  }

  /** Best-effort traces are closed under concatenation. */
  lemma BestEffortAppend(a: seq<Action>, b: seq<Action>)
    requires AllBestEffort(a) && AllBestEffort(b)
    ensures AllBestEffort(a + b)
  {
    forall i | 0 <= i < |a + b| ensures IsBestEffort((a + b)[i]) {
      if i >= |a| { assert (a + b)[i] == b[i - |a|]; }
    }
  }

  /** No step of `t` erases path `q`. */
  predicate Keeps(t: seq<Action>, q: Path)
  {
    forall i :: 0 <= i < |t| ==> !Erases(t[i], q)
  }

  lemma KeepsAppend(a: seq<Action>, b: seq<Action>, q: Path)
    requires Keeps(a, q) && Keeps(b, q)
    ensures Keeps(a + b, q)
  {
    forall i | 0 <= i < |a + b| ensures !Erases((a + b)[i], q) {
      if i >= |a| { assert (a + b)[i] == b[i - |a|]; }
    }
  }

  /** Deletes of paths strictly below `q` never erase `q` itself. */
  lemma DeletesBelowKeep(t: seq<Action>, q: Path)
    requires forall i :: 0 <= i < |t| ==> (t[i].DeleteDir? || t[i].DeleteFile?) && q < t[i].path
    ensures Keeps(t, q)
  {
    forall i | 0 <= i < |t| ensures !Erases(t[i], q) {
      assert |t[i].path| > |q|;
    }
  }

  /** Path `q` no longer exists after action `a`. */
  predicate Erases(a: Action, q: Path)
  {
    (a.DeleteDir? && a.path <= q) || (a.DeleteFile? && a.path == q)
  }

  /** Download `u` is no longer cached after action `a`. */
  predicate Forgets(a: Action, u: Url)
  {
    a.CleanDownload? && a.url == u
  }

  predicate ErasedBy(t: seq<Action>, q: Path)
  {
    exists i :: 0 <= i < |t| && Erases(t[i], q)
  }

  predicate ForgottenBy(t: seq<Action>, u: Url)
  {
    exists i :: 0 <= i < |t| && Forgets(t[i], u)
  }

  /** The world with everything the steps of `t` erase or forget taken away. */
  function Without(w: World, t: seq<Action>): World
  {
    World((set q | q in w.entries && !ErasedBy(t, q)), (set u | u in w.downloads && !ForgottenBy(t, u)))
  }

  /** One clean step; a delete that is not optional fails on a missing target. */
  function Apply(w: World, a: Action): (r: Result<World>)
    requires IsCleanStep(a)
    ensures r.Err? <==> (a.DeleteDir? || a.DeleteFile?) && !a.optional && a.path !in w.entries
    ensures r.Ok? ==> r.value.entries == set q | q in w.entries && !Erases(a, q)
    ensures r.Ok? ==> r.value.downloads == set u | u in w.downloads && !Forgets(a, u)
  {
    match a
    case DeleteDir(p, optional) =>
      if !optional && p !in w.entries then Err("directory does not exist")
      else Ok(World((set q | q in w.entries && !(p <= q)), w.downloads))
    case DeleteFile(p, optional) =>
      if !optional && p !in w.entries then Err("file does not exist")
      else Ok(World(w.entries - {p}, w.downloads))
    case CleanDownload(u) =>
      Ok(World(w.entries, w.downloads - {u}))
  }

  /** The steps of `t` in order, stopping at the first that fails. */
  function Run(w: World, t: seq<Action>): Result<World>
    requires forall i :: 0 <= i < |t| ==> IsCleanStep(t[i])
    decreases |t|
  {
    if t == [] then Ok(w)
    else
      match Apply(w, t[0])
      case Err(m) => Err(m)
      case Ok(w') => Run(w', t[1..])
  }

  /**
   * A trace of best-effort steps never fails, and its effect does not depend
   * on the order of its steps: it takes away exactly what some step erases
   * or forgets.
   */
  lemma {:induction false} RunBestEffort(w: World, t: seq<Action>)
    requires AllBestEffort(t)
    ensures Run(w, t) == Ok(Without(w, t))
    decreases |t|
  {
    if t != [] {
      var w' := Apply(w, t[0]).value;
      var rest := t[1..];
      assert AllBestEffort(rest) by {
        forall i | 0 <= i < |rest| ensures IsBestEffort(rest[i]) { assert rest[i] == t[i + 1]; }
      }
      RunBestEffort(w', rest);
      forall q ensures ErasedBy(t, q) <==> Erases(t[0], q) || ErasedBy(rest, q) {
        if ErasedBy(rest, q) {
          var i :| 0 <= i < |rest| && Erases(rest[i], q);
          assert t[i + 1] == rest[i];
        }
        if ErasedBy(t, q) && !Erases(t[0], q) {
          var i :| 0 <= i < |t| && Erases(t[i], q);
          assert rest[i - 1] == t[i];
        }
      }
      forall u ensures ForgottenBy(t, u) <==> Forgets(t[0], u) || ForgottenBy(rest, u) {
        if ForgottenBy(rest, u) {
          var i :| 0 <= i < |rest| && Forgets(rest[i], u);
          assert t[i + 1] == rest[i];
        }
        if ForgottenBy(t, u) && !Forgets(t[0], u) {
          var i :| 0 <= i < |t| && Forgets(t[i], u);
          assert rest[i - 1] == t[i];
        }
      }
      assert Run(w, t) == Run(w', rest);
      assert Without(w', rest).entries == Without(w, t).entries;
      assert Without(w', rest).downloads == Without(w, t).downloads;
    } else {
      assert Without(w, t).entries == w.entries;
      assert Without(w, t).downloads == w.downloads;
    }
  }

  /** Repeating a best-effort clean changes nothing: the second run ends where the first did. */
  lemma CleanIsIdempotent(w: World, t: seq<Action>)
    requires AllBestEffort(t)
    ensures Run(w, t).Ok?
    ensures Run(Run(w, t).value, t) == Run(w, t)
  {
    RunBestEffort(w, t);
    RunBestEffort(Without(w, t), t);
    assert Without(Without(w, t), t) == Without(w, t);
  }

  /** A path that no step of a best-effort clean erases survives it. */
  lemma CleanKeeps(w: World, t: seq<Action>, q: Path)
    requires AllBestEffort(t)
    requires q in w.entries
    requires Keeps(t, q)
    ensures Run(w, t).Ok? && q in Run(w, t).value.entries
  {
    RunBestEffort(w, t);
  }

  /** After a best-effort clean, nothing a step erases exists any more. */
  lemma CleanErases(w: World, t: seq<Action>, q: Path)
    requires AllBestEffort(t)
    requires ErasedBy(t, q)
    ensures Run(w, t).Ok? && q !in Run(w, t).value.entries
  {
    RunBestEffort(w, t);
  }
}
