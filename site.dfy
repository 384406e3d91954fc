/** How the navigation bar and the project gallery work together: the bar
    hands a dropdown entry's filter to the gallery as the detail of a
    `filterProjects` event, and the gallery stores it as its filter. */
module Site {
  import Navbar
  import Projects

  /** Of the three dropdown entries only the first, `'all'`, shows any
      project: the other two filters name no category of the gallery, so
      the grid they lead to is empty. */
  lemma ServiceFilterResults(k: nat)
    requires k < |Navbar.ServiceFilters()|
    ensures Projects.FilterProjects(Navbar.ServiceFilters()[k].filter, Projects.Projects())
      == if k == 0 then Projects.Projects() else []
  {
    Navbar.ServiceFilterValues();
    if k > 0 {
      Projects.UnknownFilterIsEmpty(Navbar.ServiceFilters()[k].filter);
    }
  }

  /** Delivering the events a bar has scheduled, in order, leaves the gallery
      showing the filter of the last one; after a dropdown entry other than
      the first, no project at all. */
  method DeliverFilterEvents(bar: Navbar.NavigationBar, gallery: Projects.ProjectCases)
    modifies gallery
    ensures bar.dispatched != [] ==> gallery.filter == bar.dispatched[|bar.dispatched| - 1]
    ensures bar.dispatched == [] ==> gallery.filter == old(gallery.filter)
    ensures gallery.selectedProject == old(gallery.selectedProject)
    ensures gallery.lastOpenedUrl == old(gallery.lastOpenedUrl)
  {
    var events := bar.dispatched;
    var i := 0;
    while i < |events|
      invariant 0 <= i <= |events|
      invariant i > 0 ==> gallery.filter == events[i - 1]
      invariant i == 0 ==> gallery.filter == old(gallery.filter)
      invariant gallery.selectedProject == old(gallery.selectedProject)
      invariant gallery.lastOpenedUrl == old(gallery.lastOpenedUrl)
    {
      gallery.HandleFilterEvent(events[i]);
      i := i + 1;
    }
  }
}
