/**
 * The settings screen: the catalog of services and products, and a local,
 * not yet saved copy of the business configuration (opening hours, blocked
 * dates, blocked hours) with a flag saying whether it differs from the saved
 * one.
 */
module AdminSettings {
  import opened Wrappers
  import opened Text
  import opened Seqs
  import opened Domain
  import opened ClientBooking

  // ---------------------------------------------------------------------------
  // Blocked dates and blocked hours

  /** The sort key of a plain string list: the string itself (`Array.prototype.sort` with no comparator). */
  function Self(s: string): string { s }

  ghost predicate Distinct(list: seq<string>) {
    forall x :: multiset(list)[x] <= 1
  }

  /** What the editor keeps true of both block lists: sorted and without repeats. */
  ghost predicate BlockList(list: seq<string>) {
    SortedBy(list, Self, false) && Distinct(list)
  }

  /**
   * `handleAddBlockDate` / `handleAddBlockSlot` on the list: an empty or
   * already present entry leaves the list alone; otherwise the entry is
   * appended and the list sorted.
   */
  function AddBlocked(list: seq<string>, item: string): (r: seq<string>)
    ensures item == "" || item in list ==> r == list
    ensures item != "" && item !in list ==>
      multiset(r) == multiset(list) + multiset{item} && SortedBy(r, Self, false)
  {
    if item == "" || item in list then list
    else
      SortBySortsAndPermutes(list + [item], Self, false);
      SortBy(list + [item], Self, false)
  }

  /** `list.filter(x => x !== item)` */
  function RemoveBlocked(list: seq<string>, item: string): (r: seq<string>)
    ensures forall x :: x in r <==> x in list && x != item
    ensures multiset(r) == multiset(list)[item := 0]
  {
    var keep := (x: string) => x != item;
    FilterMembership(list, keep);
    var r := Filter(list, keep);
    assert multiset(r) == multiset(list)[item := 0] by {
      forall y ensures multiset(r)[y] == multiset(list)[item := 0][y] {
        FilterMultiset(list, keep, y);
      }
    }
    r
  }

  /** Removing works entry by entry: the remaining entries keep their order. */
  lemma RemoveBlockedAppend(a: seq<string>, b: seq<string>, item: string)
    ensures RemoveBlocked(a + b, item) == RemoveBlocked(a, item) + RemoveBlocked(b, item)
  {
    FilterAppend(a, b, x => x != item);
  }

  /** Adding keeps a block list sorted and free of repeats, and the entry is then listed. */
  lemma AddKeepsBlockList(list: seq<string>, item: string)
    requires BlockList(list)
    ensures BlockList(AddBlocked(list, item))
    ensures item != "" ==> item in AddBlocked(list, item)
  {
    var r := AddBlocked(list, item);
    if item != "" && item !in list {
      forall x ensures multiset(r)[x] <= 1 {
        assert multiset(list)[item] == 0;
      }
      assert multiset(r)[item] > 0;
    }
  }

  /** Removing keeps a block list sorted and free of repeats, and the entry is then gone. */
  lemma {:induction false} RemoveKeepsBlockList(list: seq<string>, item: string)
    requires BlockList(list)
    ensures BlockList(RemoveBlocked(list, item))
    ensures item !in RemoveBlocked(list, item)
  {
    var r := RemoveBlocked(list, item);
    FilterSorted(list, x => x != item, Self, false);
    forall x ensures multiset(r)[x] <= 1 {
      FilterMultiset(list, x => x != item, x);
    }
  }

  /** Removing an entry the list does not hold changes nothing; the others keep their order. */
  lemma {:induction false} RemoveAbsent(list: seq<string>, item: string)
    requires item !in list
    ensures RemoveBlocked(list, item) == list
  {
    FilterAllPass(list, x => x != item);
  }

  /** `handleAddBlockSlot` on the list: both a date and an hour are needed; the key is `"date hour"`. */
  function AddBlockedSlot(slots: seq<string>, date: string, hour: string): (r: seq<string>)
    ensures date == "" || hour == "" ==> r == slots
    ensures date != "" && hour != "" ==> SlotKey(date, hour) in r && (forall s :: s in slots ==> s in r)
  {
    var key := SlotKey(date, hour);
    if date == "" || hour == "" then slots
    else
      AddBlockedMember(slots, key);
      AddBlockedKeeps(slots, key);
      AddBlocked(slots, key)
  }

  /** Adding never drops an entry already listed. */
  lemma AddBlockedKeeps(list: seq<string>, item: string)
    ensures forall s :: s in list ==> s in AddBlocked(list, item)
  {
    var r := AddBlocked(list, item);
    forall s | s in list ensures s in r {
      if item != "" && item !in list {
        assert multiset(list)[s] > 0;
        assert multiset(r)[s] > 0;
      }
    }
  }

  /** A blocked hour can no longer be booked, whatever the appointments are. */
  lemma BlockedSlotUnavailable(config: BusinessConfig, appointments: seq<Appointment>, date: string, hour: string)
    requires date != "" && hour != ""
    ensures !CheckAvailability(config.(blockedSlots := AddBlockedSlot(config.blockedSlots, date, hour)), appointments, date, hour)
  {
  }

  /** A blocked date is reported as blocked to the booking page. */
  lemma BlockedDateIsBlocked(config: BusinessConfig, date: string)
    requires date != ""
    ensures IsDateBlocked(config.(blockedDates := AddBlocked(config.blockedDates, date)), date)
  {
    AddBlockedMember(config.blockedDates, date);
  }

  lemma AddBlockedMember(list: seq<string>, item: string)
    requires item != ""
    ensures item in AddBlocked(list, item)
  {
    if item !in list {
      assert multiset(AddBlocked(list, item))[item] > 0;
    }
  }

  // ---------------------------------------------------------------------------
  // Opening hours

  /** The field of a day that one input edits. */
  datatype DayField = IsOpenField(isOpen: bool) | OpenTimeField(openTime: string) | CloseTimeField(closeTime: string)

  function SetField(day: DaySchedule, f: DayField): DaySchedule {
    match f
    case IsOpenField(v) => day.(isOpen := v)
    case OpenTimeField(v) => day.(openTime := v)
    case CloseTimeField(v) => day.(closeTime := v)
  }

  /** `handleDayUpdate` on the schedule: one field of one day changes, nothing else. */
  function UpdateDay(schedule: seq<DaySchedule>, dayIndex: nat, f: DayField): (r: seq<DaySchedule>)
    requires dayIndex < |schedule|
    ensures |r| == |schedule|
    ensures forall i :: 0 <= i < |schedule| && i != dayIndex ==> r[i] == schedule[i]
    ensures r[dayIndex].dayOfWeek == schedule[dayIndex].dayOfWeek && r[dayIndex].dayName == schedule[dayIndex].dayName
    ensures f.IsOpenField? ==> r[dayIndex] == schedule[dayIndex].(isOpen := f.isOpen)
    ensures f.OpenTimeField? ==> r[dayIndex] == schedule[dayIndex].(openTime := f.openTime)
    ensures f.CloseTimeField? ==> r[dayIndex] == schedule[dayIndex].(closeTime := f.closeTime)
  {
    schedule[dayIndex := SetField(schedule[dayIndex], f)]
  }

  /** An empty bank record (`{ bankName: '', ... }`), used when none is configured. */
  const NoBank := BankingInfo("", "", "", "", "")

  /** The settings editor's local copy of the configuration. */
  class SettingsEditor {
    var localConfig: BusinessConfig
    var hasChanges: bool
    var blockDate: string
    var blockTimeDate: string
    var blockTimeHour: string

    /** The local copy starts as the saved configuration, with an empty bank record when none is saved. */
    constructor (saved: BusinessConfig)
      ensures localConfig == saved.(bankingInfo := Some(saved.bankingInfo.GetOr(NoBank)))
      ensures !hasChanges && blockDate == "" && blockTimeDate == "" && blockTimeHour == ""
    {
      localConfig := saved.(bankingInfo := Some(saved.bankingInfo.GetOr(NoBank)));
      hasChanges := false;
      blockDate := "";
      blockTimeDate := "";
      blockTimeHour := "";
    }

    ghost predicate Valid()
      reads this
    {
      BlockList(localConfig.blockedDates) && BlockList(localConfig.blockedSlots)
    }

    method DayUpdate(dayIndex: nat, f: DayField)
      requires dayIndex < |localConfig.schedule|
      modifies this`localConfig, this`hasChanges
      ensures localConfig == old(localConfig).(schedule := UpdateDay(old(localConfig.schedule), dayIndex, f))
      ensures hasChanges
      ensures old(Valid()) ==> Valid()
    {
      localConfig := localConfig.(schedule := UpdateDay(localConfig.schedule, dayIndex, f));
      hasChanges := true;
    }

    /** `handleAddBlockDate`: the typed date is added and the input cleared, unless it is empty or already blocked. */
    method AddBlockDate()
      modifies this`localConfig, this`hasChanges, this`blockDate
      ensures old(blockDate) == "" || old(blockDate) in old(localConfig.blockedDates) ==>
        localConfig == old(localConfig) && hasChanges == old(hasChanges) && blockDate == old(blockDate)
      ensures old(blockDate) != "" && old(blockDate) !in old(localConfig.blockedDates) ==>
        localConfig == old(localConfig).(blockedDates := AddBlocked(old(localConfig.blockedDates), old(blockDate)))
        && hasChanges && blockDate == ""
      ensures old(Valid()) ==> Valid()
    {
      if blockDate != "" && blockDate !in localConfig.blockedDates {
        if Valid() {
          AddKeepsBlockList(localConfig.blockedDates, blockDate);
        }
        localConfig := localConfig.(blockedDates := AddBlocked(localConfig.blockedDates, blockDate));
        blockDate := "";
        hasChanges := true;
      }
    }

    /** `handleRemoveBlockDate` */
    method RemoveBlockDate(date: string)
      modifies this`localConfig, this`hasChanges
      ensures localConfig == old(localConfig).(blockedDates := RemoveBlocked(old(localConfig.blockedDates), date))
      ensures hasChanges
      ensures old(Valid()) ==> Valid()
    {
      if Valid() {
        RemoveKeepsBlockList(localConfig.blockedDates, date);
      }
      localConfig := localConfig.(blockedDates := RemoveBlocked(localConfig.blockedDates, date));
      hasChanges := true;
    }

    /** `handleAddBlockSlot`: needs both inputs; a new key is added and both inputs cleared. */
    method AddBlockSlot()
      modifies this`localConfig, this`hasChanges, this`blockTimeDate, this`blockTimeHour
      ensures var key := SlotKey(old(blockTimeDate), old(blockTimeHour));
        if old(blockTimeDate) != "" && old(blockTimeHour) != "" && key !in old(localConfig.blockedSlots) then
          localConfig == old(localConfig).(blockedSlots := AddBlockedSlot(old(localConfig.blockedSlots), old(blockTimeDate), old(blockTimeHour)))
          && hasChanges && blockTimeDate == "" && blockTimeHour == ""
        else
          localConfig == old(localConfig) && hasChanges == old(hasChanges)
          && blockTimeDate == old(blockTimeDate) && blockTimeHour == old(blockTimeHour)
      ensures old(Valid()) ==> Valid()
    {
      if blockTimeDate != "" && blockTimeHour != "" {
        var key := SlotKey(blockTimeDate, blockTimeHour);
        if key !in localConfig.blockedSlots {
          if Valid() {
            AddKeepsBlockList(localConfig.blockedSlots, key);
          }
          localConfig := localConfig.(blockedSlots := AddBlockedSlot(localConfig.blockedSlots, blockTimeDate, blockTimeHour));
          blockTimeDate := "";
          blockTimeHour := "";
          hasChanges := true;
        }
      }
    }

    /** `handleRemoveBlockSlot` */
    method RemoveBlockSlot(slot: string)
      modifies this`localConfig, this`hasChanges
      ensures localConfig == old(localConfig).(blockedSlots := RemoveBlocked(old(localConfig.blockedSlots), slot))
      ensures hasChanges
      ensures old(Valid()) ==> Valid()
    {
      if Valid() {
        RemoveKeepsBlockList(localConfig.blockedSlots, slot);
      }
      localConfig := localConfig.(blockedSlots := RemoveBlocked(localConfig.blockedSlots, slot));
      hasChanges := true;
    }

    /** `saveConfigChanges`: hands the local copy over to be saved and clears the flag. */
    method SaveConfigChanges() returns (saved: BusinessConfig)
      modifies this`hasChanges
      ensures saved == localConfig && !hasChanges
    {
      saved := localConfig;
      hasChanges := false;
    }

    /** `cancelConfigChanges`: the local copy goes back to the saved configuration. */
    method CancelConfigChanges(saved: BusinessConfig)
      modifies this`localConfig, this`hasChanges
      ensures localConfig == saved.(bankingInfo := Some(saved.bankingInfo.GetOr(NoBank)))
      ensures !hasChanges
    {
      localConfig := saved.(bankingInfo := Some(saved.bankingInfo.GetOr(NoBank)));
      hasChanges := false;
    }
  }

  // ---------------------------------------------------------------------------
  // Services

  /** The service form's fields, already parsed (`parseFloat`, `parseInt`); an empty image is none. */
  datatype ServiceForm = ServiceForm(name: string, price: real, duration: int, description: string, imageUrl: string)

  /**
   * `handleSaveService`: while editing, the service with that id takes the
   * form's fields (its id and active flag stay); otherwise a new, active
   * service is appended.
   */
  function SaveService(services: seq<Service>, editingId: Option<string>, form: ServiceForm, newId: string): (r: seq<Service>)
    ensures Truthy(editingId) ==> |r| == |services| && forall i :: 0 <= i < |services| ==>
      r[i] == if services[i].id == editingId.value
        then services[i].(name := form.name, price := form.price, duration := form.duration,
                          description := form.description, imageUrl := form.imageUrl)
        else services[i]
    ensures !Truthy(editingId) ==>
      r == services + [Service(newId, form.name, form.price, form.duration, true, form.description, form.imageUrl)]
  {
    if Truthy(editingId) then
      seq(|services|, i requires 0 <= i < |services| =>
        if services[i].id == editingId.value
        then services[i].(name := form.name, price := form.price, duration := form.duration,
                          description := form.description, imageUrl := form.imageUrl)
        else services[i])
    else services + [Service(newId, form.name, form.price, form.duration, true, form.description, form.imageUrl)]
  }

  /** `list.map(x => x.id === id ? flip(x) : x)`, shared by the catalog's two toggles. */
  function ToggleById<T>(list: seq<T>, id: string, idOf: T -> string, flip: T -> T): (r: seq<T>)
    ensures |r| == |list|
    ensures forall i :: 0 <= i < |list| ==> r[i] == if idOf(list[i]) == id then flip(list[i]) else list[i]
  {
    seq(|list|, i requires 0 <= i < |list| => if idOf(list[i]) == id then flip(list[i]) else list[i])
  }

  /** A flip that keeps the id and undoes itself makes toggling twice the identity. */
  lemma ToggleByIdTwice<T>(list: seq<T>, id: string, idOf: T -> string, flip: T -> T)
    requires forall x :: idOf(flip(x)) == idOf(x) && flip(flip(x)) == x
    ensures ToggleById(ToggleById(list, id, idOf, flip), id, idOf, flip) == list
  {
    var twice := ToggleById(ToggleById(list, id, idOf, flip), id, idOf, flip);
    assert forall i :: 0 <= i < |list| ==> twice[i] == list[i];
  }

  function ServiceId(s: Service): string { s.id }
  function FlipService(s: Service): Service { s.(active := !s.active) }

  /** `handleToggleService` */
  function ToggleService(services: seq<Service>, id: string): (r: seq<Service>)
    ensures |r| == |services|
    ensures forall i :: 0 <= i < |services| ==>
      r[i].active == (if services[i].id == id then !services[i].active else services[i].active)
      && r[i] == services[i].(active := r[i].active)
  {
    ToggleById(services, id, ServiceId, FlipService)
  }

  /** Toggling twice restores the catalog. */
  lemma ToggleServiceTwice(services: seq<Service>, id: string)
    ensures ToggleService(ToggleService(services, id), id) == services
  {
    ToggleByIdTwice(services, id, ServiceId, FlipService);
  }

  /** `handleDeleteService`: once confirmed, every service with that id goes and no other. */
  function DeleteService(services: seq<Service>, id: string, confirmed: bool): (r: seq<Service>)
    ensures !confirmed ==> r == services
    ensures confirmed ==> forall s :: s in r <==> s in services && s.id != id
  {
    if confirmed then
      FilterMembership(services, (s: Service) => s.id != id);
      Filter(services, (s: Service) => s.id != id)
    else services
  }

  /** Saving a new service makes it appear among those offered for booking. */
  lemma NewServiceIsOffered(services: seq<Service>, form: ServiceForm, newId: string)
    ensures Service(newId, form.name, form.price, form.duration, true, form.description, form.imageUrl)
            in ActiveServices(SaveService(services, None, form, newId))
  {
    var s := Service(newId, form.name, form.price, form.duration, true, form.description, form.imageUrl);
    assert SaveService(services, None, form, newId)[|services|] == s;
  }

  // ---------------------------------------------------------------------------
  // Products

  datatype ProductForm = ProductForm(
    name: string,
    price: real,
    stock: int,
    description: string,
    imageUrl: string,
    category: string,
    categoryType: CategoryType)

  /** `handleSaveProduct`: like services; an edited product also takes the form's category and type. */
  function SaveProduct(products: seq<Product>, editingId: Option<string>, form: ProductForm, newId: string): (r: seq<Product>)
    ensures Truthy(editingId) ==> |r| == |products| && forall i :: 0 <= i < |products| ==>
      r[i] == if products[i].id == editingId.value
        then Product(products[i].id, form.name, form.price, form.stock, products[i].active, form.description,
                     form.imageUrl, form.category, Some(form.categoryType))
        else products[i]
    ensures !Truthy(editingId) ==>
      r == products + [Product(newId, form.name, form.price, form.stock, true, form.description, form.imageUrl,
                               form.category, Some(form.categoryType))]
  {
    if Truthy(editingId) then
      seq(|products|, i requires 0 <= i < |products| =>
        if products[i].id == editingId.value
        then products[i].(name := form.name, price := form.price, stock := form.stock, description := form.description,
                          imageUrl := form.imageUrl, category := form.category, categoryType := Some(form.categoryType))
        else products[i])
    else products + [Product(newId, form.name, form.price, form.stock, true, form.description, form.imageUrl,
                             form.category, Some(form.categoryType))]
  }

  /** `handleToggleProduct` */
  function ToggleProduct(products: seq<Product>, id: string): (r: seq<Product>)
    ensures |r| == |products|
    ensures forall i :: 0 <= i < |products| ==>
      r[i].active == (if products[i].id == id then !products[i].active else products[i].active)
      && r[i] == products[i].(active := r[i].active)
  {
    ToggleById(products, id, ProductId, FlipProduct)
  }

  function ProductId(p: Product): string { p.id }
  function FlipProduct(p: Product): Product { p.(active := !p.active) }

  /** Toggling twice restores the catalog. */
  lemma ToggleProductTwice(products: seq<Product>, id: string)
    ensures ToggleProduct(ToggleProduct(products, id), id) == products
  {
    ToggleByIdTwice(products, id, ProductId, FlipProduct);
  }

  /** `handleDeleteProduct` */
  function DeleteProduct(products: seq<Product>, id: string, confirmed: bool): (r: seq<Product>)
    ensures !confirmed ==> r == products
    ensures confirmed ==> forall p :: p in r <==> p in products && p.id != id
  {
    if confirmed then
      FilterMembership(products, (p: Product) => p.id != id);
      Filter(products, (p: Product) => p.id != id)
    else products
  }

  /** The tab a product is listed under: its category type, retail when it has none. */
  predicate OnTab(p: Product, tab: CategoryType) {
    p.categoryType == Some(tab) || (p.categoryType.None? && tab == Retail)
  }

  /** `filteredProducts` */
  function FilteredProducts(products: seq<Product>, tab: CategoryType): (r: seq<Product>)
    ensures forall p :: p in r <==> p in products && OnTab(p, tab)
  {
    FilterMembership(products, (p: Product) => OnTab(p, tab));
    Filter(products, (p: Product) => OnTab(p, tab))
  }

  /** Every product is listed under exactly one of the two tabs. */
  lemma TabsPartition(products: seq<Product>, p: Product)
    requires p in products
    ensures p in FilteredProducts(products, Retail) <==> p !in FilteredProducts(products, Professional)
  {
    match p.categoryType
    case None =>
    case Some(t) => assert t == Retail || t == Professional;
  }
}
