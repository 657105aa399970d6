// MapComponent's focus and lock protocol (frontend/src/MapComponent.jsx): the
// applied selection and its change handlers, search, suggestion and marker
// selection, popup close, reset view, the lock and guard effects (444-494) and
// the map calls they make, against a small stand-in for the Leaflet map.
// React effects run at the end of the handler whose render changes the
// selected project; timers and zoom ends are explicit events.
module MapView {
  import opened Optional
  import opened Lists
  import opened Selections
  import opened Search
  import opened Viewport
  import ProjectLists

  /** The six interaction handlers the protocol enables and disables together. */
  datatype Handler = Dragging | ScrollWheelZoom | DoubleClickZoom | TouchZoom | BoxZoom | Keyboard

  const AllHandlers: set<Handler> := {Dragging, ScrollWheelZoom, DoubleClickZoom, TouchZoom, BoxZoom, Keyboard}

  /** The zoom range restored when the map is released. */
  const FreeMinZoom := 8
  const FreeMaxZoom := 14

  function Clamp(z: int, lo: int, hi: int): (r: int)
    ensures lo <= hi ==> lo <= r <= hi
    ensures lo <= z <= hi ==> r == z
  {
    if z < lo then lo else if z > hi then hi else z
  }

  /** What a camera, handler or popup call leaves visible on the map. */
  datatype Camera = Camera(enabled: set<Handler>, minZoom: int, maxZoom: int, zoom: int, lastView: Option<ViewCommand>, popup: Option<string>)

  /** The camera after a view command: setView lands on the zoom held to the current range,
      fitBounds only records its box (the zoom it settles on comes later, as a zoomend). */
  function AfterView(c: Camera, cmd: Option<ViewCommand>): Camera
  {
    match cmd
    case None => c
    case Some(FitBounds(_)) => c.(lastView := cmd)
    case Some(SetView(center, z)) =>
      var held := Clamp(z, c.minZoom, c.maxZoom);
      c.(zoom := held, lastView := Some(SetView(center, held)))
  }

  /** The part of the Leaflet map the component uses. */
  class MapWidget {
    var enabled: set<Handler>
    var minZoom: int
    var maxZoom: int
    var zoom: int
    var lastView: Option<ViewCommand>
    var popup: Option<string>
    /** The 'zoomend' listeners the component registered, by serial number. */
    var listeners: seq<nat>

    function State(): Camera
      reads this
    {
      Camera(enabled, minZoom, maxZoom, zoom, lastView, popup)
    }

    /** The map as MapContainer creates it: every handler on, zoom 8 within [8, 13]. */
    constructor ()
      ensures State() == Camera(AllHandlers, 8, 13, 8, None, None) && listeners == []
    {
      enabled, minZoom, maxZoom, zoom := AllHandlers, 8, 13, 8;
      lastView, popup, listeners := None, None, [];
    }

    method EnableAll()
      modifies this
      ensures State() == old(State()).(enabled := AllHandlers) && listeners == old(listeners)
    {
      enabled := AllHandlers;
    }

    method DisableAll()
      modifies this
      ensures State() == old(State()).(enabled := {}) && listeners == old(listeners)
    {
      enabled := {};
    }

    /** setMinZoom: a current zoom below the new minimum is raised to it. */
    method SetMinZoom(z: int)
      modifies this
      ensures State() == old(State()).(minZoom := z, zoom := if old(zoom) < z then z else old(zoom))
      ensures listeners == old(listeners)
    {
      minZoom := z;
      if zoom < z { zoom := z; }
    }

    /** setMaxZoom: a current zoom above the new maximum is lowered to it. */
    method SetMaxZoom(z: int)
      modifies this
      ensures State() == old(State()).(maxZoom := z, zoom := if old(zoom) > z then z else old(zoom))
      ensures listeners == old(listeners)
    {
      maxZoom := z;
      if zoom > z { zoom := z; }
    }

    /** setView: the zoom asked for is held to the allowed range. */
    method SetView(center: LatLng, z: int)
      modifies this
      ensures State() == old(State()).(zoom := Clamp(z, old(minZoom), old(maxZoom)), lastView := Some(ViewCommand.SetView(center, Clamp(z, old(minZoom), old(maxZoom)))))
      ensures listeners == old(listeners)
    {
      zoom := Clamp(z, minZoom, maxZoom);
      lastView := Some(ViewCommand.SetView(center, zoom));
    }

    /** fitBounds: the zoom it settles on depends on the screen and arrives with the next zoom end. */
    method FitBounds(box: Box)
      modifies this
      ensures State() == old(State()).(lastView := Some(ViewCommand.FitBounds(box))) && listeners == old(listeners)
    {
      lastView := Some(ViewCommand.FitBounds(box));
    }

    /** A zoom that ended at z, within the allowed range. */
    method ZoomTo(z: int)
      modifies this
      ensures State() == old(State()).(zoom := Clamp(z, old(minZoom), old(maxZoom))) && listeners == old(listeners)
    {
      zoom := Clamp(z, minZoom, maxZoom);
    }

    method OpenPopup(id: string)
      modifies this
      ensures State() == old(State()).(popup := Some(id)) && listeners == old(listeners)
    {
      popup := Some(id);
    }

    method ClosePopup()
      modifies this
      ensures State() == old(State()).(popup := None) && listeners == old(listeners)
    {
      popup := None;
    }

    method On(serial: nat)
      modifies this
      ensures State() == old(State()) && listeners == old(listeners) + [serial]
    {
      listeners := listeners + [serial];
    }

    method Off(serial: nat)
      modifies this
      ensures State() == old(State()) && listeners == Remove(old(listeners), serial)
    {
      listeners := Remove(listeners, serial);
    }

    /** Carry out a camera decision of zoomToProvinces. */
    method Apply(cmd: Option<ViewCommand>)
      modifies this
      ensures State() == AfterView(old(State()), cmd)
      ensures listeners == old(listeners)
    {
      if cmd.Some? {
        if cmd.value.SetView? {
          SetView(cmd.value.center, cmd.value.zoom);
        } else {
          FitBounds(cmd.value.box);
        }
      }
    }
  }

  /** suggestions.find(p => p.project_no === id), as an index: the first project with that id,
      or the length when there is none. */
  function FirstWithId(ps: seq<Project>, id: string): (k: nat)
    ensures k <= |ps|
    ensures k < |ps| ==> ps[k].id == id
    ensures forall j :: 0 <= j < k ==> ps[j].id != id
  {
    if ps == [] then 0 else if ps[0].id == id then 0 else 1 + FirstWithId(ps[1..], id)
  }

  /** The zoomend listener the lock effect registers: its serial and the project it reopens. */
  datatype Listener = Listener(serial: nat, projectId: string)

  class MapComponent {
    const leaflet: MapWidget
    /** projectsData: the loaded projects without the Processing ones. */
    var projects: seq<Project>
    var statusOptions: seq<string>
    var sectorOptions: seq<string>
    var yearOptions: seq<string>
    var applied: Selection
    var query: string
    var suggestions: seq<Project>
    var selected: Option<Project>
    var panelOpen: bool
    /** markerRefs: the markers mounted so far, and whether each is still on the map. */
    var markers: map<string, bool>
    /** zoomEndHandlerRef */
    var zoomListener: Option<Listener>
    /** popupJustClosedRef */
    var guard: bool
    /** The lock effect's last run got past its early return, so its cleanup is pending. */
    var lockArmed: bool
    /** The lock effect's 300 ms timer is pending. */
    var lockTimer: bool
    /** The guard effect's 500 ms timer is pending. */
    var guardTimer: bool
    /** Pending openPopup timers, by project number. */
    var pendingPopups: seq<string>
    var nextSerial: nat

    /** The bookkeeping every handler keeps, whatever the selection. */
    predicate Frame()
      reads this, leaflet
    {
      leaflet.listeners == (if zoomListener.Some? then [zoomListener.value.serial] else [])
      && (zoomListener.Some? ==> lockArmed && zoomListener.value.serial < nextSerial)
      && (lockTimer ==> lockArmed)
      && |applied.provinces| > 0 && |applied.statuses| > 0 && |applied.sectors| == 1
    }

    /** The effects have caught up with the selected project. */
    predicate Settled()
      reads this
    {
      (lockArmed ==> selected.Some? && !guard && (zoomListener.Some? ==> zoomListener.value.projectId == selected.value.id))
      && (guardTimer ==> selected.None? && guard)
    }

    predicate Valid()
      reads this, leaflet
    {
      Frame() && Settled()
    }

    /** The filtered projects the map shows. */
    function Shown(): seq<Project>
      reads this
    {
      FilteredProjects(projects, applied)
    }

    /** The component once the data has loaded: everything unselected and unfiltered. */
    constructor (m: MapWidget, data: seq<Project>)
      requires m.listeners == []
      ensures leaflet == m && Valid()
      ensures projects == ProjectLists.ActiveProjects(data)
      ensures statusOptions == ProjectLists.StatusOptions(data) && sectorOptions == ProjectLists.SectorOptions(data)
      ensures yearOptions == ProjectLists.YearOptions(data)
      ensures applied == Unconstrained && query == "" && suggestions == [] && selected == None && !panelOpen
      ensures markers == map[] && zoomListener == None && !guard && !lockArmed && !lockTimer && !guardTimer
      ensures pendingPopups == []
    {
      leaflet := m;
      projects := ProjectLists.ActiveProjects(data);
      statusOptions := ProjectLists.StatusOptions(data);
      sectorOptions := ProjectLists.SectorOptions(data);
      yearOptions := ProjectLists.YearOptions(data);
      applied := Unconstrained;
      query, suggestions, selected, panelOpen := "", [], None, false;
      markers, zoomListener, guard := map[], None, false;
      lockArmed, lockTimer, guardTimer := false, false, false;
      pendingPopups, nextSerial := [], 0;
    }

    /** The lock effect (444-485) and the guard effect (487-494) after a render in which the
        selected project changed from prev: cleanups of the previous runs, then the new runs. */
    method Commit(prev: Option<Project>)
      requires Frame() && (prev == selected ==> Settled())
      modifies this, leaflet
      ensures Valid()
      ensures prev == selected ==>
        leaflet.listeners == old(leaflet.listeners) && zoomListener == old(zoomListener)
        && lockArmed == old(lockArmed) && lockTimer == old(lockTimer) && guardTimer == old(guardTimer) && nextSerial == old(nextSerial)
      ensures prev != selected ==>
        lockArmed == (selected.Some? && !guard) && lockTimer == lockArmed && guardTimer == (selected.None? && guard)
        && zoomListener == (if lockArmed then Some(Listener(old(nextSerial), selected.value.id)) else None)
      ensures leaflet.State() == old(leaflet.State())
      ensures applied == old(applied) && query == old(query) && suggestions == old(suggestions) && selected == old(selected)
      ensures panelOpen == old(panelOpen) && markers == old(markers) && guard == old(guard) && pendingPopups == old(pendingPopups)
      ensures projects == old(projects) && statusOptions == old(statusOptions) && sectorOptions == old(sectorOptions) && yearOptions == old(yearOptions)
    {
      if prev != selected {
        Cleanup();
        Setup();
      }
    }

    /** The cleanups of the previous runs of both effects (477-483, 493). */
    method Cleanup()
      requires Frame()
      modifies this, leaflet
      ensures Frame() && !lockArmed && !lockTimer && !guardTimer && zoomListener == None && leaflet.listeners == []
      ensures leaflet.State() == old(leaflet.State()) && nextSerial == old(nextSerial)
      ensures applied == old(applied) && query == old(query) && suggestions == old(suggestions) && selected == old(selected)
      ensures panelOpen == old(panelOpen) && markers == old(markers) && guard == old(guard) && pendingPopups == old(pendingPopups)
      ensures projects == old(projects) && statusOptions == old(statusOptions) && sectorOptions == old(sectorOptions) && yearOptions == old(yearOptions)
    {
      if lockArmed {
        lockTimer := false;
        if zoomListener.Some? {
          leaflet.Off(zoomListener.value.serial);
          assert Remove([zoomListener.value.serial], zoomListener.value.serial) == [];
          zoomListener := None;
        }
        lockArmed := false;
      }
      guardTimer := false;
    }

    /** The new runs of both effects for the selected project: the lock effect schedules the
        lock and registers its zoom listener unless the guard is set; the guard effect
        schedules the guard's release when nothing is selected. */
    method Setup()
      requires Frame() && !lockArmed && !lockTimer && !guardTimer && zoomListener == None
      modifies this, leaflet
      ensures Valid()
      ensures lockArmed == (selected.Some? && !guard) && lockTimer == lockArmed && guardTimer == (selected.None? && guard)
      ensures zoomListener == (if lockArmed then Some(Listener(old(nextSerial), selected.value.id)) else None)
      ensures leaflet.State() == old(leaflet.State())
      ensures applied == old(applied) && query == old(query) && suggestions == old(suggestions) && selected == old(selected)
      ensures panelOpen == old(panelOpen) && markers == old(markers) && guard == old(guard) && pendingPopups == old(pendingPopups)
      ensures projects == old(projects) && statusOptions == old(statusOptions) && sectorOptions == old(sectorOptions) && yearOptions == old(yearOptions)
    {
      if selected.Some? && !guard {
        lockTimer := true;
        leaflet.On(nextSerial);
        zoomListener := Some(Listener(nextSerial, selected.value.id));
        nextSerial := nextSerial + 1;
        lockArmed := true;
      }
      if selected.None? && guard {
        guardTimer := true;
      }
    }

    // ---- Handlers of the applied selection ----

    /** Nothing but the applied selection (and the camera) has changed. */
    twostate predicate OnlyFilters()
      reads this
    {
      FocusKept() && panelOpen == old(panelOpen)
    }

    /** The selection, search and effect bookkeeping are as they were. */
    twostate predicate FocusKept()
      reads this
    {
      selected == old(selected) && query == old(query) && suggestions == old(suggestions)
      && zoomListener == old(zoomListener) && guard == old(guard) && lockArmed == old(lockArmed) && lockTimer == old(lockTimer)
      && guardTimer == old(guardTimer) && pendingPopups == old(pendingPopups) && markers == old(markers) && projects == old(projects)
    }

    /** handleProvinceChange: an empty list means "All"; the map moves to the new provinces. */
    method ProvinceChange(list: seq<string>)
      requires Valid()
      modifies this, leaflet
      ensures Valid()
      ensures applied == old(applied).(provinces := EmptyToAll(list))
      ensures leaflet.State() == AfterView(old(leaflet.State()), ZoomRule(EmptyToAll(list)))
      ensures OnlyFilters()
    {
      applied := applied.(provinces := EmptyToAll(list));
      var cmd := ZoomToProvinces(EmptyToAll(list));
      leaflet.Apply(cmd);
    }

    /** handleStatusChange: an empty list means "All". */
    method StatusChange(list: seq<string>)
      requires Valid()
      modifies this
      ensures Valid() && applied == old(applied).(statuses := EmptyToAll(list)) && OnlyFilters()
    {
      applied := applied.(statuses := EmptyToAll(list));
    }

    /** handleSectorChange: clicking the single current sector clears it. */
    method SectorChange(sector: string)
      requires Valid()
      modifies this
      ensures Valid() && applied == old(applied).(sectors := Selections.SectorChange(old(applied.sectors), sector)) && OnlyFilters()
    {
      applied := applied.(sectors := Selections.SectorChange(applied.sectors, sector));
    }

    method YearChange(year: string)
      requires Valid()
      modifies this
      ensures Valid() && applied == old(applied).(year := year) && OnlyFilters()
    {
      applied := applied.(year := year);
    }

    /** The panel's Clear button (845-853): every dimension back to "All", the map to the region. */
    method ClearFilters()
      requires Valid()
      modifies this, leaflet
      ensures Valid() && applied == Unconstrained
      ensures leaflet.State() == old(leaflet.State()).(zoom := Clamp(DefaultZoom, old(leaflet.minZoom), old(leaflet.maxZoom)),
                                               lastView := Some(ViewCommand.SetView(Region1Center, Clamp(DefaultZoom, old(leaflet.minZoom), old(leaflet.maxZoom)))))
      ensures OnlyFilters()
    {
      applied := Unconstrained;
      leaflet.SetView(Region1Center, DefaultZoom);
    }

    /** The menu button (556-558). */
    method ToggleFilterPanel()
      requires Valid()
      modifies this
      ensures Valid() && panelOpen == !old(panelOpen) && applied == old(applied) && selected == old(selected) && FocusKept()
    {
      panelOpen := !panelOpen;
    }

    /** The panel's onClose (854). */
    method ClosePanel()
      requires Valid()
      modifies this
      ensures Valid() && !panelOpen && applied == old(applied) && FocusKept()
    {
      panelOpen := false;
    }

    // ---- Search and selection ----

    /** handleSearchChange: new suggestions from every loaded project, and the selection dropped
        without releasing the map. */
    method SearchChange(q: string)
      requires Valid()
      modifies this, leaflet
      ensures Valid()
      ensures query == q && suggestions == Suggestions(projects, q) && selected == None
      ensures leaflet.State() == old(leaflet.State())
      ensures applied == old(applied) && guard == old(guard) && pendingPopups == old(pendingPopups) && projects == old(projects)
      ensures old(selected).Some? ==> !lockTimer && zoomListener == None && leaflet.listeners == []
    {
      var prev := selected;
      query := q;
      suggestions := Suggestions(projects, q);
      selected := None;
      Commit(prev);
    }

    /** handleSuggestionClick: the already-selected project only refills the query; any other
        project is selected, the map released, centred on it at the current zoom, and its popup
        scheduled. */
    method SuggestionClick(p: Project)
      requires Valid()
      modifies this, leaflet
      ensures Valid()
      ensures query == p.title && suggestions == [] && applied == old(applied) && guard == old(guard)
      ensures old(selected).Some? && old(selected).value.id == p.id ==>
        selected == old(selected) && leaflet.State() == old(leaflet.State()) && leaflet.listeners == old(leaflet.listeners)
        && pendingPopups == old(pendingPopups) && lockTimer == old(lockTimer) && zoomListener == old(zoomListener)
      ensures !(old(selected).Some? && old(selected).value.id == p.id) ==>
        var z := Clamp(old(leaflet.zoom), FreeMinZoom, FreeMaxZoom);
        selected == Some(p) && pendingPopups == old(pendingPopups) + [p.id]
        && leaflet.State() == old(leaflet.State()).(enabled := AllHandlers, minZoom := FreeMinZoom, maxZoom := FreeMaxZoom,
                                            zoom := z, lastView := Some(ViewCommand.SetView(LatLng(p.lat, p.lng), z)))
        && (guard ==> zoomListener == None && !lockTimer)
        && (!guard ==> lockTimer && zoomListener == Some(Listener(old(nextSerial), p.id)))
    {
      query := p.title;
      suggestions := [];
      if !(selected.Some? && selected.value.id == p.id) {
        FocusOn(p);
      }
    }

    /** The selecting part of handleSuggestionClick (205-230): the project becomes the selected
        one, the map is centred on it and its popup scheduled, and the effects rerun. */
    method FocusOn(p: Project)
      requires Valid() && !(selected.Some? && selected.value.id == p.id)
      modifies this, leaflet
      ensures Valid()
      ensures var z := Clamp(old(leaflet.zoom), FreeMinZoom, FreeMaxZoom);
        selected == Some(p) && pendingPopups == old(pendingPopups) + [p.id]
        && leaflet.State() == old(leaflet.State()).(enabled := AllHandlers, minZoom := FreeMinZoom, maxZoom := FreeMaxZoom,
                                            zoom := z, lastView := Some(ViewCommand.SetView(LatLng(p.lat, p.lng), z)))
        && (guard ==> zoomListener == None && !lockTimer)
        && (!guard ==> lockTimer && zoomListener == Some(Listener(old(nextSerial), p.id)))
      ensures query == old(query) && suggestions == old(suggestions) && applied == old(applied) && guard == old(guard)
    {
      var prev := selected;
      selected := Some(p);
      Recentre(p);
      pendingPopups := pendingPopups + [p.id];
      Commit(prev);
    }

    /** The camera part of handleSuggestionClick (207-222): release the map, then centre on the
        project at the zoom it has after the release. */
    method Recentre(p: Project)
      modifies leaflet
      ensures var z := Clamp(old(leaflet.zoom), FreeMinZoom, FreeMaxZoom);
        leaflet.State() == old(leaflet.State()).(enabled := AllHandlers, minZoom := FreeMinZoom, maxZoom := FreeMaxZoom,
                                                 zoom := z, lastView := Some(ViewCommand.SetView(LatLng(p.lat, p.lng), z)))
      ensures leaflet.listeners == old(leaflet.listeners)
    {
      ReleaseMap();
      var z := leaflet.zoom;
      leaflet.SetView(LatLng(p.lat, p.lng), z);
    }

    /** The search box's callback (719-724): only a project still among the suggestions is selected. */
    method ChooseSuggestion(s: Project)
      requires Valid()
      modifies this, leaflet
      ensures Valid()
      ensures applied == old(applied) && guard == old(guard)
      ensures FirstWithId(old(suggestions), s.id) == |old(suggestions)| ==>
        FocusKept() && leaflet.State() == old(leaflet.State()) && leaflet.listeners == old(leaflet.listeners)
      ensures var k := FirstWithId(old(suggestions), s.id);
        k < |old(suggestions)| ==>
          var p := old(suggestions)[k];
          query == p.title && suggestions == []
          && (old(selected).Some? && old(selected).value.id == s.id ==>
                selected == old(selected) && leaflet.State() == old(leaflet.State()) && pendingPopups == old(pendingPopups))
          && (!(old(selected).Some? && old(selected).value.id == s.id) ==>
                var z := Clamp(old(leaflet.zoom), FreeMinZoom, FreeMaxZoom);
                selected == Some(p) && pendingPopups == old(pendingPopups) + [s.id]
                && leaflet.State() == old(leaflet.State()).(enabled := AllHandlers, minZoom := FreeMinZoom, maxZoom := FreeMaxZoom,
                                                    zoom := z, lastView := Some(ViewCommand.SetView(LatLng(p.lat, p.lng), z)))
                && (guard ==> zoomListener == None && !lockTimer)
                && (!guard ==> lockTimer && zoomListener == Some(Listener(old(nextSerial), s.id))))
    {
      var i := 0;
      while i < |suggestions| && suggestions[i].id != s.id
        invariant 0 <= i <= |suggestions|
        invariant forall j :: 0 <= j < i ==> suggestions[j].id != s.id
      {
        i := i + 1;
      }
      assert i == FirstWithId(suggestions, s.id);
      if i < |suggestions| {
        SuggestionClick(suggestions[i]);
      }
    }

    /** handleClearSearch: query and selection cleared; if a project was selected the map is
        recentred on the applied provinces (or the region) and its popup closed, but it is
        not released. */
    method ClearSearch()
      requires Valid()
      modifies this, leaflet
      ensures Valid()
      ensures query == "" && suggestions == [] && selected == None && applied == old(applied) && guard == old(guard)
      ensures leaflet.enabled == old(leaflet.enabled) && leaflet.minZoom == old(leaflet.minZoom) && leaflet.maxZoom == old(leaflet.maxZoom)
      ensures old(selected).None? ==> leaflet.State() == old(leaflet.State())
      ensures old(selected).Some? ==> !lockTimer && zoomListener == None
      ensures old(selected).Some? ==>
        var cmd := if old(applied.provinces[0]) != All then ZoomRule(old(applied.provinces)) else Some(DefaultView);
        leaflet.State() == AfterView(old(leaflet.State()), cmd).(popup := None)
    {
      var prev := selected;
      query := "";
      suggestions := [];
      selected := None;
      if prev.Some? {
        BackToFilterView(applied.provinces);
      }
      Commit(prev);
    }

    /** The camera part of handleClearSearch (239-247): back to the provinces' view, or to the
        region view when they are "All", and the popup closed. */
    method BackToFilterView(provinces: seq<string>)
      requires |provinces| > 0
      modifies leaflet
      ensures var cmd := if provinces[0] != All then ZoomRule(provinces) else Some(DefaultView);
        leaflet.State() == AfterView(old(leaflet.State()), cmd).(popup := None)
      ensures leaflet.listeners == old(leaflet.listeners)
    {
      if provinces[0] != All {
        var cmd := ZoomToProvinces(provinces);
        leaflet.Apply(cmd);
      } else {
        leaflet.SetView(Region1Center, DefaultZoom);
      }
      leaflet.ClosePopup();
    }

    /** handleMarkerClick: the selected project's marker does nothing; another marker selects
        its project and schedules its popup. */
    method MarkerClick(p: Project)
      requires Valid()
      modifies this, leaflet
      ensures Valid()
      ensures old(selected).Some? && old(selected).value.id == p.id ==>
        selected == old(selected) && pendingPopups == old(pendingPopups) && leaflet.State() == old(leaflet.State())
        && leaflet.listeners == old(leaflet.listeners) && lockTimer == old(lockTimer) && zoomListener == old(zoomListener)
      ensures !(old(selected).Some? && old(selected).value.id == p.id) ==>
        selected == Some(p) && pendingPopups == old(pendingPopups) + [p.id] && leaflet.State() == old(leaflet.State())
        && (guard ==> zoomListener == None && !lockTimer)
        && (!guard ==> lockTimer && zoomListener == Some(Listener(old(nextSerial), p.id)))
      ensures query == old(query) && suggestions == old(suggestions) && applied == old(applied) && guard == old(guard)
    {
      if selected.Some? && selected.value.id == p.id {
        return;
      }
      var prev := selected;
      selected := Some(p);
      pendingPopups := pendingPopups + [p.id];
      Commit(prev);
    }

    /** handlePopupClose: the guard is set, the zoom listener removed, the selection, query and
        suggestions cleared, and the map released to [8, 14] with its popup closed. */
    method PopupClose()
      requires Valid()
      modifies this, leaflet
      ensures Valid()
      ensures guard && selected == None && query == "" && suggestions == []
      ensures zoomListener == None && leaflet.listeners == [] && !lockTimer
      ensures old(selected).Some? ==> guardTimer
      ensures old(selected).None? ==> guardTimer == old(guardTimer)
      ensures leaflet.enabled == AllHandlers && leaflet.minZoom == FreeMinZoom && leaflet.maxZoom == FreeMaxZoom && leaflet.popup == None
      ensures leaflet.zoom == Clamp(old(leaflet.zoom), FreeMinZoom, FreeMaxZoom) && leaflet.lastView == old(leaflet.lastView)
      ensures applied == old(applied) && pendingPopups == old(pendingPopups)
    {
      var prev := selected;
      Unfocus();
      ReleaseMap();
      leaflet.ClosePopup();
      Commit(prev);
    }

    /** Every handler back on and the zoom range back to [8, 14]. */
    method ReleaseMap()
      modifies leaflet
      ensures leaflet.State() == old(leaflet.State()).(enabled := AllHandlers, minZoom := FreeMinZoom, maxZoom := FreeMaxZoom,
                                                       zoom := Clamp(old(leaflet.zoom), FreeMinZoom, FreeMaxZoom))
      ensures leaflet.listeners == old(leaflet.listeners)
    {
      leaflet.EnableAll();
      leaflet.SetMinZoom(FreeMinZoom);
      leaflet.SetMaxZoom(FreeMaxZoom);
    }

    /** The first steps of handlePopupClose (272-279): the guard is set, the zoom listener is
        taken off the map and its ref nulled, and the selection and search are cleared. */
    method Unfocus()
      requires Frame()
      modifies this, leaflet
      ensures Frame() && zoomListener == None && leaflet.listeners == []
      ensures guard && selected == None && query == "" && suggestions == []
      ensures leaflet.State() == old(leaflet.State()) && nextSerial == old(nextSerial)
      ensures lockArmed == old(lockArmed) && lockTimer == old(lockTimer) && guardTimer == old(guardTimer)
      ensures applied == old(applied) && panelOpen == old(panelOpen) && markers == old(markers) && pendingPopups == old(pendingPopups)
      ensures projects == old(projects) && statusOptions == old(statusOptions) && sectorOptions == old(sectorOptions) && yearOptions == old(yearOptions)
    {
      guard := true;
      selected := None;
      query := "";
      suggestions := [];
      DropZoomListener();
    }

    /** The listener removal (273-276): off the map, and the ref nulled. */
    method DropZoomListener()
      requires Frame()
      modifies this, leaflet
      ensures Frame() && zoomListener == None && leaflet.listeners == []
      ensures leaflet.State() == old(leaflet.State()) && nextSerial == old(nextSerial)
      ensures lockArmed == old(lockArmed) && lockTimer == old(lockTimer) && guardTimer == old(guardTimer)
      ensures applied == old(applied) && query == old(query) && suggestions == old(suggestions) && selected == old(selected)
      ensures panelOpen == old(panelOpen) && markers == old(markers) && guard == old(guard) && pendingPopups == old(pendingPopups)
      ensures projects == old(projects) && statusOptions == old(statusOptions) && sectorOptions == old(sectorOptions) && yearOptions == old(yearOptions)
    {
      if zoomListener.Some? {
        leaflet.Off(zoomListener.value.serial);
        assert Remove([zoomListener.value.serial], zoomListener.value.serial) == [];
        zoomListener := None;
      }
    }

    /** The Reset View button (913-938); it is disabled while a project is selected or the panel is open. */
    method ResetView()
      requires Valid()
      modifies this, leaflet
      ensures Valid()
      ensures old(selected).Some? || old(panelOpen) ==>
        leaflet.State() == old(leaflet.State()) && query == old(query) && suggestions == old(suggestions)
      ensures old(selected).None? && !old(panelOpen) ==>
        query == "" && suggestions == [] && selected == None
        && leaflet.State() == Camera(AllHandlers, FreeMinZoom, FreeMaxZoom, Clamp(DefaultZoom, FreeMinZoom, FreeMaxZoom),
                                 Some(ViewCommand.SetView(Region1Center, Clamp(DefaultZoom, FreeMinZoom, FreeMaxZoom))), None)
      ensures selected == old(selected) && applied == old(applied) && guard == old(guard)
    {
      if selected.Some? || panelOpen {
        return;
      }
      var prev := selected;
      query := "";
      suggestions := [];
      selected := None;
      ReleaseMap();
      leaflet.SetView(Region1Center, DefaultZoom);
      leaflet.ClosePopup();
      Commit(prev);
    }

    // ---- Deferred steps and map events ----

    /** The lock step (451-463): pins the zoom range to the current zoom and disables the six
        handlers; its timer is cleared whenever the selection changes, so it only runs while the
        project it was set for is selected. */
    method LockTimerFires()
      requires Valid()
      modifies this, leaflet
      ensures Valid() && !lockTimer
      ensures old(lockTimer) ==>
        selected.Some? && leaflet.State() == old(leaflet.State()).(enabled := {}, minZoom := old(leaflet.zoom), maxZoom := old(leaflet.zoom))
      ensures !old(lockTimer) ==> leaflet.State() == old(leaflet.State())
      ensures selected == old(selected) && guard == old(guard) && zoomListener == old(zoomListener) && leaflet.listeners == old(leaflet.listeners)
    {
      if lockTimer {
        leaflet.DisableAll();
        var z := leaflet.zoom;
        leaflet.SetMinZoom(z);
        leaflet.SetMaxZoom(z);
        lockTimer := false;
      }
    }

    /** The guard-clear step (489-491). */
    method GuardTimerFires()
      requires Valid()
      modifies this
      ensures Valid() && !guardTimer
      ensures guard == (old(guard) && !old(guardTimer))
      ensures selected == old(selected) && zoomListener == old(zoomListener) && lockTimer == old(lockTimer)
    {
      if guardTimer {
        guard := false;
        guardTimer := false;
      }
    }

    /** A zoom ends at z: the registered listener (465-475) schedules the selected project's popup
        again if its marker is on the map. While the guard is set no listener is registered. */
    method ZoomEnd(z: int)
      requires Valid()
      modifies this, leaflet
      ensures Valid()
      ensures guard ==> zoomListener == None
      ensures leaflet.State() == old(leaflet.State()).(zoom := Clamp(z, old(leaflet.minZoom), old(leaflet.maxZoom)))
      ensures var reopen := zoomListener.Some? && zoomListener.value.projectId in markers && markers[zoomListener.value.projectId];
        pendingPopups == old(pendingPopups) + (if reopen then [zoomListener.value.projectId] else [])
      ensures selected == old(selected) && zoomListener == old(zoomListener) && guard == old(guard) && lockTimer == old(lockTimer)
    {
      leaflet.ZoomTo(z);
      if zoomListener.Some? && !guard {
        var id := zoomListener.value.projectId;
        if id in markers && markers[id] {
          pendingPopups := pendingPopups + [id];
        }
      }
    }

    /** A pending openPopup timer fires: the popup opens if the marker is still on the map. */
    method PopupTimerFires(k: nat)
      requires Valid() && k < |pendingPopups|
      modifies this, leaflet
      ensures Valid()
      ensures pendingPopups == old(pendingPopups[..k] + pendingPopups[k + 1..])
      ensures var id := old(pendingPopups[k]);
        leaflet.State() == if id in markers && markers[id] then old(leaflet.State()).(popup := Some(id)) else old(leaflet.State())
      ensures selected == old(selected) && zoomListener == old(zoomListener) && guard == old(guard) && lockTimer == old(lockTimer)
    {
      var id := pendingPopups[k];
      pendingPopups := pendingPopups[..k] + pendingPopups[k + 1..];
      if id in markers && markers[id] {
        leaflet.OpenPopup(id);
      }
    }

    /** A marker's ref callback (RegionMap.jsx:56-60): the marker is recorded as on the map. */
    method MarkerMounted(id: string)
      requires Valid()
      modifies this
      ensures Valid() && markers == old(markers)[id := true] && selected == old(selected)
    {
      markers := markers[id := true];
    }

    /** A marker leaves the map; its ref stays in the registry. */
    method MarkerUnmounted(id: string)
      requires Valid()
      modifies this
      ensures Valid() && selected == old(selected)
      ensures markers == if id in old(markers) then old(markers)[id := false] else old(markers)
    {
      if id in markers {
        markers := markers[id := false];
      }
    }
  }

  // ---- Scenarios ----

  /** Closing the popup and picking another project before the guard clears: the new project
      is never locked, and the guard outlives its timer until the next close. */
  method QuickReselectAfterClose(data: seq<Project>, a: Project, b: Project) returns (locked: bool, guardStuck: bool)
    requires a.id != b.id
    ensures !locked && guardStuck
  {
    var m := new MapWidget();
    var c := new MapComponent(m, data);
    c.MarkerClick(a);
    c.LockTimerFires();
    c.PopupClose();
    c.MarkerClick(b);
    c.GuardTimerFires();
    c.LockTimerFires();
    locked := m.enabled == {};
    guardStuck := c.guard && !c.guardTimer;
  }

  /** Selecting by marker and waiting for the lock pins the map; searching again keeps it pinned. */
  method SearchKeepsLock(data: seq<Project>, a: Project, q: string) returns (pinned: bool)
    ensures pinned
  {
    var m := new MapWidget();
    var c := new MapComponent(m, data);
    c.MarkerClick(a);
    c.LockTimerFires();
    c.SearchChange(q);
    pinned := c.selected == None && m.enabled == {} && m.minZoom == m.maxZoom;
  }
}
