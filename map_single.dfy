/** The single-branch map: the five-star rating row, the initial search location, and map
    presses that move the marker while editing. */
module MapSingle {
  import opened Common

  datatype Star = Full | Half | Outline

  /** Icon `i` (1 to 5) for a rating: full when `i <= rating`, half when it is above the
      rating by at most one half, outline otherwise. */
  function StarAt(i: int, rating: real): Star
  {
    if i as real <= rating then Full
    else if i as real - rating <= 0.5 then Half
    else Outline
  }

  /** The five icons, built by pushing one icon per position from 1 to 5. */
  method RenderStars(rating: real) returns (stars: seq<Star>)
    ensures |stars| == 5
    ensures forall k :: 0 <= k < 5 ==> stars[k] == StarAt(k + 1, rating)
  {
    stars := [];
    for i := 1 to 6
      invariant |stars| == i - 1
      invariant forall k :: 0 <= k < |stars| ==> stars[k] == StarAt(k + 1, rating)
    {
      stars := stars + [StarAt(i, rating)];
    }
  }

  /** The full stars form a prefix; there is at most one half star and it comes right after
      the full stars; everything after it is outline. */
  lemma StarsShape(rating: real, i: int, j: int)
    requires 1 <= i < j <= 5
    ensures StarAt(j, rating) == Full ==> StarAt(i, rating) == Full
    ensures StarAt(j, rating) == Half ==> StarAt(i, rating) == Full
    ensures StarAt(i, rating) == Half ==> StarAt(j, rating) == Outline
    ensures StarAt(i, rating) == Outline ==> StarAt(j, rating) == Outline
  {
  }

  /** A rating of 5 or more shows five full stars; a rating below one half shows five outline
      stars; a rating of exactly `n + 0.5` shows `n` full stars and one half star. */
  lemma StarsExtremes(rating: real, i: int)
    requires 1 <= i <= 5
    ensures rating >= 5.0 ==> StarAt(i, rating) == Full
    ensures rating < 0.5 ==> StarAt(i, rating) == Outline
  {
  }

  lemma StarsHalfPoint(n: nat, i: int)
    requires n < 5 && 1 <= i <= 5
    ensures StarAt(i, n as real + 0.5) == (if i <= n then Full else if i == n + 1 then Half else Outline)
  {
  }

  /** The branch as the map receives it; a missing field is `None`. */
  datatype MapBranch = MapBranch(name: Option<string>, address: Option<string>,
                                 latitude: Option<real>, longitude: Option<real>)

  datatype Region = Region(latitude: real, longitude: real)

  /** The location the map is centred on. A coordinate is `None` when neither the branch nor
      the initial region supplies one. */
  datatype SearchLocation = SearchLocation(latitude: Option<real>, longitude: Option<real>, address: string)

  /** `x || fallback` on a nullable number: a null or zero coordinate is replaced. */
  function CoordinateOr(x: Option<real>, fallback: Option<real>): (r: Option<real>)
    ensures x.Some? && x.value != 0.0 ==> r == x
    ensures !(x.Some? && x.value != 0.0) ==> r == fallback
  {
    if x.Some? && x.value != 0.0 then x else fallback
  }

  /** The initial search location: the branch's coordinates, each falling back to the
      initial region's when null or zero, and its address or the empty text. */
  function InitialLocation(branch: Option<MapBranch>, initialRegion: Option<Region>): (r: SearchLocation)
    ensures r.latitude == CoordinateOr(if branch.Some? then branch.value.latitude else None,
                                       if initialRegion.Some? then Some(initialRegion.value.latitude) else None)
    ensures r.longitude == CoordinateOr(if branch.Some? then branch.value.longitude else None,
                                        if initialRegion.Some? then Some(initialRegion.value.longitude) else None)
    ensures r.address == if branch.Some? && branch.value.address.Some? then branch.value.address.value else ""
  {
    var b := if branch.Some? then branch.value else MapBranch(None, None, None, None);
    var lat := if initialRegion.Some? then Some(initialRegion.value.latitude) else None;
    var lon := if initialRegion.Some? then Some(initialRegion.value.longitude) else None;
    SearchLocation(CoordinateOr(b.latitude, lat), CoordinateOr(b.longitude, lon),
                   if b.address.Some? then b.address.value else "")
  }

  /** `{ ...branch, latitude, longitude }`: the branch with new coordinates; a null branch
      spreads to nothing, leaving only the coordinates. */
  function WithCoordinates(branch: Option<MapBranch>, latitude: real, longitude: real): (r: MapBranch)
    ensures r.latitude == Some(latitude) && r.longitude == Some(longitude)
    ensures branch.Some? ==> r.name == branch.value.name && r.address == branch.value.address
    ensures branch.None? ==> r.name.None? && r.address.None?
  {
    if branch.Some? then branch.value.(latitude := Some(latitude), longitude := Some(longitude))
    else MapBranch(None, None, Some(latitude), Some(longitude))
  }

  /** The component between mount and unmount. The `branch` and `isEditing` props are read
      on every render, so a re-render with new props changes them; `searchLocation` is local
      state whose initialiser runs only at mount. */
  class MapSingleState {
    var branch: Option<MapBranch>
    var isEditing: bool
    var searchLocation: SearchLocation
    /** Every branch passed to `setSelectedBranch`, in order. */
    var selections: seq<MapBranch>

    constructor (b: Option<MapBranch>, editing: bool, initialRegion: Option<Region>)
      ensures branch == b && isEditing == editing
      ensures searchLocation == InitialLocation(b, initialRegion) && selections == []
    {
      branch, isEditing := b, editing;
      searchLocation := InitialLocation(b, initialRegion);
      selections := [];
    }

    /** A re-render of the parent with new props. The local search location is kept, since
        the `useState` initialiser does not run again. */
    method PropsChanged(b: Option<MapBranch>, editing: bool)
      modifies this`branch, this`isEditing
      ensures branch == b && isEditing == editing
      ensures searchLocation == old(searchLocation) && selections == old(selections)
    {
      branch, isEditing := b, editing;
    }

    /** A press on the map while editing moves the search location to the pressed point,
        keeping its address, and selects the branch with those coordinates. The map has no
        press handler outside editing. */
    method HandleMapPress(latitude: real, longitude: real)
      modifies this`searchLocation, this`selections
      ensures isEditing ==>
                && searchLocation == old(searchLocation).(latitude := Some(latitude), longitude := Some(longitude))
                && selections == old(selections) + [WithCoordinates(branch, latitude, longitude)]
      ensures !isEditing ==> searchLocation == old(searchLocation) && selections == old(selections)
    {
      if isEditing {
        searchLocation := searchLocation.(latitude := Some(latitude), longitude := Some(longitude));
        selections := selections + [WithCoordinates(branch, latitude, longitude)];
      }
    }

    /** The marker exists only for a branch; pressing it selects the current branch prop
        unchanged. */
    method PressMarker()
      modifies this`selections
      ensures selections == old(selections) + (if branch.Some? then [branch.value] else [])
    {
      if branch.Some? {
        selections := selections + [branch.value];
      }
    }
  }

  /** The branch form's flow: the map is mounted while the form is not editing, so a press
      does nothing; once the parent switches editing on and re-renders with a rebuilt branch,
      a press selects the rebuilt branch, not the mount-time one, with the pressed
      coordinates. */
  method MountThenEdit(b: MapBranch, rebuilt: MapBranch, initialRegion: Option<Region>, latitude: real, longitude: real)
    returns (before: seq<MapBranch>, after: seq<MapBranch>)
    ensures before == []
    ensures after == [WithCoordinates(Some(rebuilt), latitude, longitude)]
    ensures after[0].latitude == Some(latitude) && after[0].name == rebuilt.name
  {
    var m := new MapSingleState(Some(b), false, initialRegion);
    m.HandleMapPress(latitude, longitude);
    before := m.selections;
    m.PropsChanged(Some(rebuilt), true);
    m.HandleMapPress(latitude, longitude);
    after := m.selections;
  }
}
