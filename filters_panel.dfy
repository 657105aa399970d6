// The filters panel (frontend/src/FiltersPanel.jsx:783-1290): a pending selection
// edited locally, compared with the applied one through JSON.stringify, and pushed to
// the component's handlers by Apply; chips remove single values.
module Panel {
  import opened Optional
  import opened Lists
  import opened Json
  import opened Selections
  import opened Viewport
  import opened MapView

  /** The pending selection differs from the applied one, compared as the source compares them. */
  predicate Differs(pending: Selection, applied: Selection)
  {
    Stringify(pending.provinces) != Stringify(applied.provinces)
    || Stringify(pending.statuses) != Stringify(applied.statuses)
    || Stringify(pending.sectors) != Stringify(applied.sectors)
    || pending.year != applied.year
  }

  /** Comparing the JSON texts is comparing the selections. */
  lemma DiffersIffUnequal(pending: Selection, applied: Selection)
    ensures Differs(pending, applied) <==> pending != applied
  {
    StringifyInjective(pending.provinces, applied.provinces);
    StringifyInjective(pending.statuses, applied.statuses);
    StringifyInjective(pending.sectors, applied.sectors);
  }

  /** Some dimension of the selection is constrained (its head is not "All"). */
  predicate Active(sel: Selection)
    requires |sel.provinces| > 0 && |sel.statuses| > 0 && |sel.sectors| > 0
  {
    sel.provinces[0] != All || sel.statuses[0] != All || sel.sectors[0] != All || sel.year != All
  }

  class FiltersPanel {
    const host: MapComponent
    var pending: Selection

    /** The panel is mounted, its host is consistent and the pending lists have the shapes the
        handlers keep. */
    predicate Valid()
      reads this, host, host.leaflet
    {
      host.Valid() && host.panelOpen
      && |pending.provinces| > 0 && |pending.statuses| > 0 && |pending.sectors| == 1
    }

    /** hasPendingChanges */
    function HasPendingChanges(): (r: bool)
      reads this, host
    {
      Differs(pending, host.applied)
    }

    /** The panel mounts with the applied selection as its pending one. */
    constructor (h: MapComponent)
      requires h.Valid() && h.panelOpen
      ensures host == h && pending == h.applied && Valid()
    {
      host := h;
      pending := h.applied;
    }

    // ---- Pending edits ----

    /** handlePendingProvinceChange: a checkbox or a pending chip. */
    method PendingProvinceChange(v: string)
      requires Valid()
      modifies this
      ensures Valid() && pending == old(pending).(provinces := Toggle(old(pending.provinces), v))
    {
      pending := pending.(provinces := Toggle(pending.provinces, v));
    }

    /** handlePendingStatusChange: a checkbox or a pending chip. */
    method PendingStatusChange(v: string)
      requires Valid()
      modifies this
      ensures Valid() && pending == old(pending).(statuses := Toggle(old(pending.statuses), v))
    {
      pending := pending.(statuses := Toggle(pending.statuses, v));
    }

    /** handlePendingSectorChange from the sector list (1223): compared with the applied sectors. */
    method PendingSectorChange(sector: string)
      requires Valid()
      modifies this
      ensures Valid() && pending == old(pending).(sectors := SectorChange(host.applied.sectors, sector))
    {
      pending := pending.(sectors := SectorChange(host.applied.sectors, sector));
    }

    /** handlePendingYearChange: a year button, or the pending year chip with "All". */
    method PendingYearChange(year: string)
      requires Valid()
      modifies this
      ensures Valid() && pending == old(pending).(year := year)
    {
      pending := pending.(year := year);
    }

    /** The pending sector chip (1020), toggling the pending sector. */
    method RemovePendingSector(sector: string)
      requires Valid()
      modifies this
      ensures Valid() && pending == old(pending).(sectors := RemovePendingSectorChip(old(pending.sectors), sector))
      ensures sector in Concrete(old(pending.sectors)) ==> pending.sectors == [All]
    {
      if sector in Concrete(pending.sectors) {
        RemovePendingSectorChipClears(pending.sectors, sector);
      }
      pending := pending.(sectors := RemovePendingSectorChip(pending.sectors, sector));
    }

    /** resetPendingChanges */
    method ResetPending()
      requires Valid()
      modifies this
      ensures Valid() && pending == host.applied && !HasPendingChanges()
    {
      pending := host.applied;
      DiffersIffUnequal(pending, host.applied);
    }

    // ---- Pushing to the component ----

    /** applyFilters: every pending dimension is handed to the component's handlers (the
        sector and year only when they differ), and the panel closes. The applied selection is
        then exactly the pending one. */
    method ApplyFilters()
      requires Valid()
      modifies host, host.leaflet
      ensures host.Valid() && !host.panelOpen
      ensures host.applied == ApplyPending(old(host.applied), old(pending)) == old(pending)
      ensures host.leaflet.State() == AfterView(old(host.leaflet.State()), ZoomRule(old(pending.provinces)))
      ensures host.leaflet.listeners == old(host.leaflet.listeners) && host.FocusKept()
    {
      host.ProvinceChange(pending.provinces);
      host.StatusChange(pending.statuses);
      if pending.sectors[0] != host.applied.sectors[0] {
        host.SectorChange(pending.sectors[0]);
      }
      if pending.year != host.applied.year {
        host.YearChange(pending.year);
      }
      host.ClosePanel();
    }

    /** The applied province chip (995), shown only while nothing is pending: the value is
        removed, the map moves, and the panel's sync effect copies the result back. */
    method RemoveAppliedProvince(v: string)
      requires Valid() && !HasPendingChanges()
      modifies this, host, host.leaflet
      ensures Valid() && pending == host.applied
      ensures host.applied == old(host.applied).(provinces := RemoveChip(old(host.applied.provinces), v))
      ensures WellFormed(old(host.applied.provinces)) && v in old(host.applied.provinces) && v != All ==>
        host.applied.provinces == Toggle(old(host.applied.provinces), v)
      ensures host.leaflet.State() == AfterView(old(host.leaflet.State()), ZoomRule(RemoveChip(old(host.applied.provinces), v)))
      ensures host.leaflet.listeners == old(host.leaflet.listeners) && host.FocusKept()
    {
      if WellFormed(host.applied.provinces) && v in host.applied.provinces && v != All {
        RemoveChipIsToggle(host.applied.provinces, v);
      }
      host.ProvinceChange(EmptyToAll(Remove(host.applied.provinces, v)));
      pending := host.applied;
    }

    /** The applied status chip (996). */
    method RemoveAppliedStatus(v: string)
      requires Valid() && !HasPendingChanges()
      modifies this, host
      ensures Valid() && pending == host.applied
      ensures host.applied == old(host.applied).(statuses := RemoveChip(old(host.applied.statuses), v))
      ensures WellFormed(old(host.applied.statuses)) && v in old(host.applied.statuses) && v != All ==>
        host.applied.statuses == Toggle(old(host.applied.statuses), v)
      ensures host.FocusKept()
    {
      if WellFormed(host.applied.statuses) && v in host.applied.statuses && v != All {
        RemoveChipIsToggle(host.applied.statuses, v);
      }
      host.StatusChange(EmptyToAll(Remove(host.applied.statuses, v)));
      pending := host.applied;
    }

    /** The applied sector chip (997): the sector handler with the one applied sector clears it. */
    method RemoveAppliedSector()
      requires Valid() && !HasPendingChanges()
      modifies this, host
      ensures Valid() && pending == host.applied
      ensures host.applied == old(host.applied).(sectors := [All]) && host.FocusKept()
    {
      host.SectorChange(host.applied.sectors[0]);
      pending := host.applied;
    }

    /** The applied year chip (768, 998). */
    method RemoveAppliedYear()
      requires Valid() && !HasPendingChanges()
      modifies this, host
      ensures Valid() && pending == host.applied
      ensures host.applied == old(host.applied).(year := All) && host.FocusKept()
    {
      host.YearChange(All);
      pending := host.applied;
    }

    /** Clear All (949-953), shown while a filter is applied or pending: the component clears
        every dimension and recentres the map, and the sync effect clears the pending ones. */
    method ClearAll()
      requires Valid() && (Active(host.applied) || HasPendingChanges())
      modifies this, host, host.leaflet
      ensures Valid() && host.applied == Unconstrained && pending == Unconstrained && !HasPendingChanges()
      ensures host.leaflet.State() == old(host.leaflet.State()).(zoom := Clamp(DefaultZoom, old(host.leaflet.minZoom), old(host.leaflet.maxZoom)),
                lastView := Some(ViewCommand.SetView(Region1Center, Clamp(DefaultZoom, old(host.leaflet.minZoom), old(host.leaflet.maxZoom)))))
      ensures host.leaflet.listeners == old(host.leaflet.listeners) && host.FocusKept()
    {
      host.ClearFilters();
      pending := host.applied;
      DiffersIffUnequal(pending, host.applied);
    }

    /** The close button (955). */
    method Close()
      requires Valid()
      modifies host
      ensures !host.panelOpen && host.Valid() && host.applied == old(host.applied) && host.FocusKept()
    {
      host.ClosePanel();
    }
  }

  /** Opening the panel from the menu button mounts it on the applied selection. */
  method Open(host: MapComponent) returns (panel: FiltersPanel)
    requires host.Valid() && !host.panelOpen
    modifies host
    ensures panel.Valid() && panel.host == host && panel.pending == host.applied && !panel.HasPendingChanges()
  {
    host.ToggleFilterPanel();
    panel := new FiltersPanel(host);
    DiffersIffUnequal(panel.pending, host.applied);
  }
}
