/**
 * Classification of a project directory by the marker entries directly
 * under it.  A directory is modelled as the finite set of its entry names;
 * the existence checks and the non-recursive globs of the original become
 * membership tests on that set.
 */
module ProjectDetector {
  import opened Optional
  import opened Text

  /** The closed set of toolchains the launcher knows. */
  datatype ProjectType = Python | Rust | Astro | Nix

  /** Whether an entry called `name` marks a directory as a project of type `t`. */
  predicate IsMarkerOf(t: ProjectType, name: string) {
    match t
    case Python => name == "pyproject.toml"
    case Rust => name == "Cargo.toml"
    case Astro => name == "astro.config.mjs"
    case Nix => EndsWith(name, ".nix") || name == ".flake"
  }

  predicate HasMarker(entries: set<string>, t: ProjectType) {
    exists name :: name in entries && IsMarkerOf(t, name)
  }

  predicate IsMarker(name: string) {
    IsMarkerOf(Python, name) || IsMarkerOf(Rust, name) || IsMarkerOf(Astro, name) || IsMarkerOf(Nix, name)
  }

  /** The order in which the markers are tried; a lower rank wins. */
  function Rank(t: ProjectType): nat {
    match t
    case Python => 0
    case Rust => 1
    case Astro => 2
    case Nix => 3
  }

  /**
   * The first type, in rank order, whose marker is present; `None` when the
   * directory holds no marker at all.  `*.nix` matches any entry name ending
   * in ".nix" (a leading dot included), and `.flake` only that exact name.
   */
  function Detect(entries: set<string>): (r: Option<ProjectType>)
    ensures r.Some? ==> HasMarker(entries, r.value)
    ensures r.Some? ==> forall u :: Rank(u) < Rank(r.value) ==> !HasMarker(entries, u)
    ensures r.None? <==> forall t :: !HasMarker(entries, t)
  {
    if "pyproject.toml" in entries then
      assert IsMarkerOf(Python, "pyproject.toml");
      Some(Python)
    else if "Cargo.toml" in entries then
      assert IsMarkerOf(Rust, "Cargo.toml");
      Some(Rust)
    else if "astro.config.mjs" in entries then
      assert IsMarkerOf(Astro, "astro.config.mjs");
      Some(Astro)
    else if (exists name :: name in entries && EndsWith(name, ".nix")) || ".flake" in entries then
      assert HasMarker(entries, Nix);
      Some(Nix)
    else None
  }

  /**
   * `Detect` is the highest-priority type whose marker is present: the
   * contract of `Detect` determines its result.
   */
  lemma DetectIsHighestPriority(entries: set<string>, t: ProjectType)
    ensures Detect(entries) == Some(t)
        <==> HasMarker(entries, t) && forall u :: Rank(u) < Rank(t) ==> !HasMarker(entries, u)
  {
    if HasMarker(entries, t) && forall u :: Rank(u) < Rank(t) ==> !HasMarker(entries, u) {
      assert Detect(entries).Some?;
    }
  }

  /** The four rules of the priority chain, one per branch. */
  lemma DetectRules(entries: set<string>)
    ensures "pyproject.toml" in entries ==> Detect(entries) == Some(Python)
    ensures "pyproject.toml" !in entries && "Cargo.toml" in entries ==> Detect(entries) == Some(Rust)
    ensures "pyproject.toml" !in entries && "Cargo.toml" !in entries && "astro.config.mjs" in entries
      ==> Detect(entries) == Some(Astro)
    ensures "pyproject.toml" !in entries && "Cargo.toml" !in entries && "astro.config.mjs" !in entries
      ==> (Detect(entries) == Some(Nix) <==> exists name :: name in entries && IsMarkerOf(Nix, name))
  {
  }

  /** The result is `None` exactly when no entry is a marker of any kind. */
  lemma DetectNoneIff(entries: set<string>)
    ensures Detect(entries).None? <==> forall name :: name in entries ==> !IsMarker(name)
  {
    if Detect(entries).None? {
      forall name | name in entries ensures !IsMarker(name) {
        assert !HasMarker(entries, Python) && !HasMarker(entries, Rust);
        assert !HasMarker(entries, Astro) && !HasMarker(entries, Nix);
      }
    }
  }

  /** Entries that are no marker never change the classification. */
  lemma DetectIgnoresOtherEntries(entries: set<string>, extra: string)
    requires !IsMarker(extra)
    ensures Detect(entries + {extra}) == Detect(entries)
  {
    if (exists name :: name in entries + {extra} && EndsWith(name, ".nix")) {
      var name :| name in entries + {extra} && EndsWith(name, ".nix");
      assert name in entries;
    }
  }

  /** A directory with only a `Cargo.toml` is a Rust project; an empty one is no project. */
  lemma DetectExamples()
    ensures Detect({"Cargo.toml"}) == Some(Rust)
    ensures Detect({"pyproject.toml", "Cargo.toml"}) == Some(Python)
    ensures Detect({"flake.nix", "README.md"}) == Some(Nix)
    ensures Detect({}) == None
  {
    assert "flake.nix" in {"flake.nix", "README.md"} && EndsWith("flake.nix", ".nix");
  }
}
