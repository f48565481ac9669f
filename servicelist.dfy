/** The service catalogue (components/services/service-list.tsx): the list
    of services with save (from the form), edit, delete, activate/deactivate
    and duplicate. Fresh ids are `Date.now().toString()`, so "now" comes in
    as a parameter. */
module ServiceList {
  import opened Wrappers
  import opened Text
  import opened Seqs
  import opened ServiceForm

  /** `{...serviceData, id}`: the form's record under the given id. */
  function WithId(d: Draft, id: string): (s: Service)
    ensures ToDraft(s) == d.(id := Some(id))
  {
    Service(id, d.name, d.description, d.price, d.duration, d.category, d.isActive,
            d.requiresPreparation, d.maxAdvanceBooking, d.bookings)
  }

  /** The edited entry: the form's record, forced to the edited id. */
  function SaveEdited(services: seq<Service>, editedId: string, d: Draft): seq<Service> {
    MapWhere(services, (s: Service) => s.id == editedId, _ => WithId(d, editedId))
  }

  /** `{...serviceData, id: Date.now().toString(), bookings: 0}`. */
  function NewService(d: Draft, now: nat): (s: Service)
    ensures s.id == NatToString(now) && s.bookings == Some(0)
    ensures ToDraft(s) == d.(id := Some(NatToString(now)), bookings := Some(0))
  {
    WithId(d, NatToString(now)).(bookings := Some(0))
  }

  /** `prev.filter(s => s.id !== serviceId)`. */
  function DeleteService(services: seq<Service>, id: string): seq<Service> {
    Filter(services, (s: Service) => s.id != id)
  }

  /** `prev.map(s => s.id === serviceId ? {...s, isActive: !s.isActive} : s)`. */
  function ToggleActive(services: seq<Service>, id: string): seq<Service> {
    MapWhere(services, (s: Service) => s.id == id, (s: Service) => s.(isActive := !s.isActive))
  }

  /** `{...service, id, name: `${name} (Copy)`, bookings: 0}`. */
  function Duplicate(s: Service, now: nat): (c: Service)
    ensures c.name == s.name + " (Copy)" && c.bookings == Some(0) && c.id == NatToString(now)
    ensures c.(id := s.id, name := s.name, bookings := s.bookings) == s
  {
    s.(id := NatToString(now), name := s.name + " (Copy)", bookings := Some(0))
  }

  /** Toggling twice is the identity; toggling changes only the matching
      services' `isActive`. */
  lemma ToggleTwice(services: seq<Service>, id: string)
    ensures ToggleActive(ToggleActive(services, id), id) == services
    ensures forall i :: 0 <= i < |services| ==>
      ToggleActive(services, id)[i] == if services[i].id == id
        then services[i].(isActive := !services[i].isActive) else services[i]
  {
    var once := ToggleActive(services, id);
    var twice := ToggleActive(once, id);
    assert forall i :: 0 <= i < |services| ==> twice[i] == services[i];
  }

  /** Delete removes every service with the id and keeps the others, in
      order. */
  lemma DeleteServiceMeaning(services: seq<Service>, id: string)
    ensures forall s :: s in DeleteService(services, id) <==> s in services && s.id != id
    ensures IsSubsequence(DeleteService(services, id), services)
  {
    FilterIsSubsequence(services, (s: Service) => s.id != id);
    FilterMembers(services, (s: Service) => s.id != id);
  }

  /** Opening a service in the form and saving it without changes leaves
      the catalogue as it was, when no other service shares its id. */
  lemma EditSaveRoundTrip(services: seq<Service>, s: Service)
    requires forall i :: 0 <= i < |services| && services[i].id == s.id ==> services[i] == s
    ensures SaveEdited(services, s.id, InitialForm(Some(s))) == services
  {
    InitialFormIsService(s);
    var r := SaveEdited(services, s.id, InitialForm(Some(s)));
    assert forall i :: 0 <= i < |services| ==> r[i] == services[i];
  }

  class Catalogue {
    var services: seq<Service>
    var editingService: Option<Service>
    var showForm: bool

    constructor (initial: seq<Service>)
      ensures services == initial && editingService.None? && !showForm
    {
      services := initial;
      editingService := None;
      showForm := false;
    }

    /** "Add Service": open the form with nothing being edited. */
    method OpenForm()
      modifies this`showForm
      ensures showForm
    {
      showForm := true;
    }

    /** The form's `onCancel`. */
    method CancelForm()
      modifies this`showForm, this`editingService
      ensures !showForm && editingService.None?
    {
      showForm := false;
      editingService := None;
    }

    /** `handleSaveService(serviceData)` at time `now`. */
    method HandleSaveService(serviceData: Draft, now: nat)
      modifies this
      ensures old(editingService).Some? ==>
        services == SaveEdited(old(services), old(editingService).value.id, serviceData)
      ensures old(editingService).None? ==> services == old(services) + [NewService(serviceData, now)]
      ensures !showForm && editingService.None?
    {
      if editingService.Some? {
        services := SaveEdited(services, editingService.value.id, serviceData);
      } else {
        services := services + [NewService(serviceData, now)];
      }
      showForm := false;
      editingService := None;
    }

    /** `handleEditService(service)`: the form opens on that service. */
    method HandleEditService(service: Service)
      modifies this`editingService, this`showForm
      ensures editingService == Some(service) && showForm
    {
      editingService := Some(service);
      showForm := true;
    }

    method HandleDeleteService(serviceId: string)
      modifies this`services
      ensures services == DeleteService(old(services), serviceId)
    {
      services := DeleteService(services, serviceId);
    }

    method HandleToggleActive(serviceId: string)
      modifies this`services
      ensures services == ToggleActive(old(services), serviceId)
    {
      services := ToggleActive(services, serviceId);
    }

    /** `handleDuplicateService(service)` at time `now`: the copy goes at the
        end; everything before it is unchanged. */
    method HandleDuplicateService(service: Service, now: nat)
      modifies this`services
      ensures services == old(services) + [Duplicate(service, now)]
      ensures |services| == |old(services)| + 1 && services[..|old(services)|] == old(services)
    {
      services := services + [Duplicate(service, now)];
    }
  }

  /** Saving an edit keeps the length and gives every replaced entry the
      edited id and the form's fields; saving a new service appends it. */
  lemma SaveShapes(services: seq<Service>, editedId: string, d: Draft, now: nat)
    ensures |SaveEdited(services, editedId, d)| == |services|
    ensures forall i :: 0 <= i < |services| && services[i].id == editedId ==>
      SaveEdited(services, editedId, d)[i].id == editedId
      && ToDraft(SaveEdited(services, editedId, d)[i]) == d.(id := Some(editedId))
    ensures forall i :: 0 <= i < |services| && services[i].id != editedId ==>
      SaveEdited(services, editedId, d)[i] == services[i]
    ensures var added := services + [NewService(d, now)];
      |added| == |services| + 1 && added[|services|].bookings == Some(0)
  {
  }
}
