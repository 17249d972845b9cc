/** Lexical normalisation of paths, and the search for the nearest project config. */
module ProjectPaths {
  import opened Options

  datatype Component = RootDir | CurDir | ParentDir | Normal(name: string)

  /** A path is its components; the root can only come first. */
  type Path = seq<Component>

  predicate WellFormed(p: Path) { forall i :: 0 < i < |p| ==> p[i] != RootDir }

  predicate IsAbsolute(p: Path) { p != [] && p[0] == RootDir }

  /** The path a path is in; a root and an empty path are in none. */
  function Parent(p: Path): Option<Path> {
    if p == [] || p[|p| - 1] == RootDir then None else Some(p[..|p| - 1])
  }

  /** Pushing an absolute path replaces what was there. */
  function Join(p: Path, q: Path): Path { if IsAbsolute(q) then q else p + q }

  // ----- Normalisation -----

  function Step(normalized: Path, c: Component): Path {
    match c
    case CurDir => normalized
    case ParentDir =>
      (match Parent(normalized)
       case Some(parent) => parent
       case None => Join(normalized, [c]))
    case _ => Join(normalized, [c])
  }

  /** Normalisation goes on from `normalized`. */
  function Continued(normalized: Path, p: Path): Path
    decreases |p|
  {
    if p == [] then normalized else Continued(Step(normalized, p[0]), p[1..])
  }

  function Normalized(p: Path): Path { Continued([], p) }

  method LexicallyNormalized(p: Path) returns (normalized: Path)
    ensures normalized == Normalized(p)
  {
    normalized := [];
    for n := 0 to |p|
      invariant Continued(normalized, p[n..]) == Normalized(p)
    {
      assert p[n..][1..] == p[n + 1..];
      match p[n] {
        case CurDir =>
        case ParentDir =>
          var parent := Parent(normalized);
          normalized := if parent.Some? then parent.value else normalized + [ParentDir];
        case _ =>
          normalized := Join(normalized, [p[n]]);
      }
    }
  }

  /** No `.`, and no `..` except one in front. */
  predicate IsNormal(p: Path) {
    && WellFormed(p) && CurDir !in p
    && forall i :: 0 < i < |p| && p[i] == ParentDir ==> i == 1 && p[0] == RootDir
  }

  lemma {:induction false} ContinuedJoins(normalized: Path, p: Path, q: Path)
    ensures Continued(normalized, p + q) == Continued(Continued(normalized, p), q)
    decreases |p|
  {
    if p == [] {
      assert p + q == q;
    } else {
      assert (p + q)[1..] == p[1..] + q;
      ContinuedJoins(Step(normalized, p[0]), p[1..], q);
    }
  }

  lemma {:induction false} ContinuedIsNormal(normalized: Path, p: Path)
    requires IsNormal(normalized) && WellFormed(p) && (IsAbsolute(p) ==> normalized == [])
    ensures IsNormal(Continued(normalized, p))
    ensures IsAbsolute(normalized) ==> IsAbsolute(Continued(normalized, p))
    decreases |p|
  {
    if p != [] {
      ContinuedIsNormal(Step(normalized, p[0]), p[1..]);
    }
  }

  /** A normal path goes through normalisation unchanged. */
  lemma {:induction false} NormalStays(p: Path)
    requires IsNormal(p)
    ensures Normalized(p) == p
  {
    if p != [] {
      var front, last := p[..|p| - 1], p[|p| - 1];
      assert p == front + [last];
      assert IsNormal(front);
      NormalStays(front);
      ContinuedJoins([], front, [last]);
      assert Continued(front, [last]) == Step(front, last);
      if last == ParentDir && |p| > 1 {
        assert p == [RootDir, ParentDir] && front == [RootDir];
      }
    }
  }

  /** Normalising leaves at most one leading `..`, and doing it again changes nothing. */
  lemma NormalisationIsIdempotent(p: Path)
    requires WellFormed(p)
    ensures IsNormal(Normalized(p)) && Normalized(Normalized(p)) == Normalized(p)
    ensures IsAbsolute(p) ==> IsAbsolute(Normalized(p))
  {
    ContinuedIsNormal([], p);
    NormalStays(Normalized(p));
    if IsAbsolute(p) {
      ContinuedIsNormal([RootDir], p[1..]);
    }
  }

  // ----- Where a path leads -----

  /** A place: below the root, or some directories up from where one stands and then down. */
  datatype Place = Place(absolute: bool, ups: nat, names: seq<string>)

  function Go(place: Place, c: Component): Place {
    match c
    case RootDir => Place(true, 0, [])
    case CurDir => place
    case Normal(name) => place.(names := place.names + [name])
    case ParentDir =>
      if place.names != [] then place.(names := place.names[..|place.names| - 1])
      else if place.absolute then place
      else place.(ups := place.ups + 1)
  }

  function GoOn(place: Place, p: Path): Place
    decreases |p|
  {
    if p == [] then place else GoOn(Go(place, p[0]), p[1..])
  }

  function PlaceOf(p: Path): Place { GoOn(Place(false, 0, []), p) }

  lemma {:induction false} GoOnJoins(place: Place, p: Path, q: Path)
    ensures GoOn(place, p + q) == GoOn(GoOn(place, p), q)
    decreases |p|
  {
    if p == [] {
      assert p + q == q;
    } else {
      assert (p + q)[1..] == p[1..] + q;
      GoOnJoins(Go(place, p[0]), p[1..], q);
    }
  }

  lemma PlaceOfOneMore(p: Path, c: Component)
    ensures PlaceOf(p + [c]) == Go(PlaceOf(p), c)
  {
    GoOnJoins(Place(false, 0, []), p, [c]);
    assert GoOn(PlaceOf(p), [c]) == Go(PlaceOf(p), c);
  }

  /** The place of a normal path is written on it. */
  lemma {:induction false} PlaceOfNormal(p: Path)
    requires IsNormal(p)
    ensures var place := PlaceOf(p);
            && place.absolute == IsAbsolute(p)
            && (place.names == [] <==> p == [] || !p[|p| - 1].Normal?)
            && (!place.absolute ==> place.ups == if p != [] && p[0] == ParentDir then 1 else 0)
            && (place.absolute ==> place.ups == 0)
            && (p != [] && p[|p| - 1].Normal? ==>
                  PlaceOf(p[..|p| - 1]) == place.(names := place.names[..|place.names| - 1]))
  {
    if p != [] {
      var front, last := p[..|p| - 1], p[|p| - 1];
      assert p == front + [last] && IsNormal(front);
      PlaceOfNormal(front);
      PlaceOfOneMore(front, last);
    }
  }

  /** The places of two paths, as long as no more than one directory up is asked for. */
  ghost predicate SamePlace(normalized: Place, place: Place) {
    && normalized.absolute == place.absolute && normalized.names == place.names
    && (if place.absolute then true else normalized.ups == place.ups % 2)
  }

  lemma StepKeepsPlace(normalized: Path, place: Place, c: Component)
    requires IsNormal(normalized) && SamePlace(PlaceOf(normalized), place) && (c == RootDir ==> normalized == [])
    ensures SamePlace(PlaceOf(Step(normalized, c)), Go(place, c))
  {
    PlaceOfNormal(normalized);
    PlaceOfOneMore(normalized, c);
    if c == ParentDir && normalized != [] && normalized[|normalized| - 1] == ParentDir {
      var front := normalized[..|normalized| - 1];
      assert front == [] || front == [RootDir];
      assert PlaceOf([]) == Place(false, 0, []);
      assert PlaceOf([RootDir]) == Place(true, 0, []) by {
        PlaceOfOneMore([], RootDir);
        assert [] + [RootDir] == [RootDir];
      }
    } else if c == RootDir {
      assert [] + [RootDir] == [RootDir];
    }
  }

  lemma {:induction false} ContinuedKeepsPlace(normalized: Path, place: Place, p: Path)
    requires IsNormal(normalized) && SamePlace(PlaceOf(normalized), place)
    requires WellFormed(p) && (IsAbsolute(p) ==> normalized == [])
    ensures SamePlace(PlaceOf(Continued(normalized, p)), GoOn(place, p))
    decreases |p|
  {
    if p != [] {
      StepKeepsPlace(normalized, place, p[0]);
      ContinuedIsNormal(normalized, [p[0]]);
      assert Continued(normalized, [p[0]]) == Step(normalized, p[0]);
      ContinuedKeepsPlace(Step(normalized, p[0]), Go(place, p[0]), p[1..]);
    }
  }

  lemma {:induction false} AbsoluteStaysPut(place: Place, p: Path)
    requires place.absolute && place.ups == 0
    ensures GoOn(place, p).absolute && GoOn(place, p).ups == 0
    decreases |p|
  {
    if p != [] {
      AbsoluteStaysPut(Go(place, p[0]), p[1..]);
    }
  }

  /** Normalising an absolute path keeps its place, where `..` at the root stays at the root. */
  lemma AbsolutePlaceIsKept(p: Path)
    requires WellFormed(p) && IsAbsolute(p)
    ensures PlaceOf(Normalized(p)) == PlaceOf(p)
  {
    ContinuedKeepsPlace([], Place(false, 0, []), p);
    NormalisationIsIdempotent(p);
    PlaceOfNormal(Normalized(p));
    AbsoluteStaysPut(Place(true, 0, []), p[1..]);
  }

  /** A relative path keeps its place exactly when it leads up no more than one directory: a second
      `..` cancels the first instead of adding to it. */
  lemma RelativePlaceIsKeptUpToOne(p: Path)
    requires WellFormed(p) && !IsAbsolute(p)
    ensures PlaceOf(Normalized(p)) == PlaceOf(p) <==> PlaceOf(p).ups <= 1
  {
    ContinuedKeepsPlace([], Place(false, 0, []), p);
    RelativeStays(Place(false, 0, []), p);
  }

  lemma {:induction false} RelativeStays(place: Place, p: Path)
    requires !place.absolute && RootDir !in p
    ensures !GoOn(place, p).absolute
    decreases |p|
  {
    if p != [] {
      RelativeStays(Go(place, p[0]), p[1..]);
    }
  }

  lemma TwoUpIsLost()
    ensures Normalized([ParentDir, ParentDir]) == [] && PlaceOf([ParentDir, ParentDir]) == Place(false, 2, [])
  {
  }

  // ----- The nearest config -----

  const CONFIG := Normal("xsht-config.ini")

  /** The first of a path and the paths it is in that holds a config. */
  function Nearest(dir: Path, exists_: Path -> bool): Option<Path>
    decreases |dir|
  {
    if exists_(dir + [CONFIG]) then Some(dir)
    else
      match Parent(dir)
      case None => None
      case Some(parent) => Nearest(parent, exists_)
  }

  function Absolute(file: Path, cwd: Path): Path { Normalized(Join(cwd, file)) }

  function NearestConfigDir(file: Path, cwd: Option<Path>, exists_: Path -> bool): Option<Path> {
    if !IsAbsolute(file) && cwd.None? then None
    else
      var base := if IsAbsolute(file) then [] else cwd.value;
      match Parent(Absolute(file, base))
      case None => None
      case Some(start) =>
        match Nearest(start, exists_)
        case None => None
        case Some(dir) =>
          if IsAbsolute(file) then Some(dir)
          else if Normalized(base) <= dir then
            var below := dir[|Normalized(base)|..];
            Some(if below == [] then [CurDir] else below)
          else Some(dir)
  }

  /** A directory above or at another: an absolute prefix of it. */
  predicate IsAncestor(dir: Path, of: Path) { dir <= of && IsAbsolute(dir) }

  lemma {:induction false} NearestIsDeepest(start: Path, exists_: Path -> bool)
    requires WellFormed(start) && IsAbsolute(start)
    ensures match Nearest(start, exists_) {
              case None => forall dir :: IsAncestor(dir, start) ==> !exists_(dir + [CONFIG])
              case Some(dir) =>
                && IsAncestor(dir, start) && exists_(dir + [CONFIG])
                && forall other :: IsAncestor(other, start) && exists_(other + [CONFIG]) ==> |other| <= |dir|
            }
    decreases |start|
  {
    forall dir | IsAncestor(dir, start) && dir != start
      ensures Parent(start).Some? && IsAncestor(dir, Parent(start).value)
    {
      assert |dir| < |start|;
    }
    if !exists_(start + [CONFIG]) && Parent(start).Some? {
      NearestIsDeepest(Parent(start).value, exists_);
    }
  }

  /** A directory above a path: an absolute beginning of it, and not the path itself. */
  predicate IsAbove(dir: Path, path: Path) { dir < path && IsAbsolute(dir) }

  /** The deepest directory above a path that holds a config. */
  ghost predicate IsDeepestConfig(dir: Path, path: Path, exists_: Path -> bool) {
    && IsAbove(dir, path) && exists_(dir + [CONFIG])
    && forall other :: IsAbove(other, path) && exists_(other + [CONFIG]) ==> |other| <= |dir|
  }

  /** How the answer names the directory: relative to the current one if it is at or below that, as `.` if it
      is that one, and absolute otherwise. */
  ghost predicate Names(answer: Path, dir: Path, file: Path, cwd: Option<Path>)
    requires IsAbsolute(file) || cwd.Some?
  {
    if !IsAbsolute(file) && Normalized(cwd.value) <= dir then
      && !IsAbsolute(answer)
      && if dir == Normalized(cwd.value) then answer == [CurDir] else Normalized(cwd.value) + answer == dir
    else answer == dir
  }

  /** The answer names the deepest directory above the file that holds a config, and joined to the current
      directory and normalised it is that directory; there is no answer exactly when there is no such
      directory, or for a relative file without a current directory. */
  lemma AnswerIsTheDeepestConfig(file: Path, cwd: Option<Path>, exists_: Path -> bool)
    requires WellFormed(file) && (cwd.Some? ==> WellFormed(cwd.value) && IsAbsolute(cwd.value))
    ensures !IsAbsolute(file) && cwd.None? ==> NearestConfigDir(file, cwd, exists_) == None
    ensures IsAbsolute(file) || cwd.Some? ==>
              var path := Normalized(if IsAbsolute(file) then file else cwd.value + file);
              var answer := NearestConfigDir(file, cwd, exists_);
              && (answer.None? ==> forall dir :: IsAbove(dir, path) ==> !exists_(dir + [CONFIG]))
              && (answer.Some? ==>
                    exists dir ::
                      && IsDeepestConfig(dir, path, exists_) && Names(answer.value, dir, file, cwd)
                      && Normalized(if cwd.Some? then Join(cwd.value, answer.value) else answer.value) == dir)
  {
    if IsAbsolute(file) || cwd.Some? {
      var base := if IsAbsolute(file) then [] else cwd.value;
      var path := Absolute(file, base);
      assert Join(base, file) == if IsAbsolute(file) then file else cwd.value + file;
      NormalisationIsIdempotent(Join(base, file));
      var start := Parent(path);
      if start.Some? {
        forall dir ensures IsAbove(dir, path) <==> IsAncestor(dir, start.value) {
          assert path == start.value + [path[|path| - 1]];
        }
        NearestIsDeepest(start.value, exists_);
        var dir := Nearest(start.value, exists_);
        if dir.Some? {
          AnswerRejoins(file, cwd, exists_, start.value, dir.value);
          assert IsDeepestConfig(dir.value, path, exists_);
        }
      } else {
        assert path == [RootDir];
      }
    }
  }

  lemma AnswerRejoins(file: Path, cwd: Option<Path>, exists_: Path -> bool, start: Path, dir: Path)
    requires IsAbsolute(file) || cwd.Some?
    requires (cwd.Some? ==> WellFormed(cwd.value) && IsAbsolute(cwd.value)) && IsNormal(dir) && IsAbsolute(dir)
    requires Parent(Absolute(file, if IsAbsolute(file) then [] else cwd.value)) == Some(start)
    requires Nearest(start, exists_) == Some(dir)
    ensures var answer := NearestConfigDir(file, cwd, exists_);
            && answer.Some? && Names(answer.value, dir, file, cwd)
            && Normalized(if cwd.Some? then Join(cwd.value, answer.value) else answer.value) == dir
  {
    NormalStays(dir);
    if !IsAbsolute(file) {
      NormalisationIsIdempotent(cwd.value);
      var here := Normalized(cwd.value);
      if here <= dir {
        var below := dir[|here|..];
        assert dir == here + below;
        ContinuedJoins([], here, below);
        ContinuedJoins([], cwd.value, below);
        ContinuedJoins([], cwd.value, [CurDir]);
        assert Continued(here, [CurDir]) == here;
      }
    }
  }
}
