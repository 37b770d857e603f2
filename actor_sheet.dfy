/**
 * The character-sheet controller `ParanoiaXPActorSheet` of module/actor/actor-sheet.js:
 * the host objects it reads and writes, and its four operations as imperative methods
 * proved against the specifications in Items, Naming, Security and ItemCreation.
 */
module ActorSheet {
  import opened Wrappers
  import opened HostConfig
  import opened Items
  import opened Naming
  import opened Security
  import opened ItemCreation

  /** A change passed to `actor.update`. */
  datatype Change = SetBasename(basename: string) | SetName(name: string)

  /** A call the sheet issues to the host's entity store. */
  datatype HostCall = UpdateCall(change: Change) | CreateItemCall(itemData: ItemData)

  /**
   * The actor as the host store holds it, with the log of calls the sheet has issued.
   * An issued update is applied at once, in issue order.
   */
  class Actor {
    var name: string
    var actorType: string
    var basename: Option<string>
    var clearance: string
    var sector: string
    var cloneValue: int
    var calls: seq<HostCall>

    constructor (name: string, actorType: string, basename: Option<string>, clearance: string, sector: string, cloneValue: int)
      ensures this.name == name && this.actorType == actorType && this.basename == basename
      ensures this.clearance == clearance && this.sector == sector && this.cloneValue == cloneValue
      ensures calls == []
    {
      this.name := name;
      this.actorType := actorType;
      this.basename := basename;
      this.clearance := clearance;
      this.sector := sector;
      this.cloneValue := cloneValue;
      calls := [];
    }

    /** The host's update call: logged, then applied to the one field it names. */
    method Update(change: Change)
      modifies this
      ensures calls == old(calls) + [UpdateCall(change)]
      ensures name == if change.SetName? then change.name else old(name)
      ensures basename == if change.SetBasename? then Some(change.basename) else old(basename)
      ensures actorType == old(actorType) && clearance == old(clearance)
      ensures sector == old(sector) && cloneValue == old(cloneValue)
    {
      calls := calls + [UpdateCall(change)];
      match change
      case SetName(n) => name := n;
      case SetBasename(b) => basename := Some(b);
    }

    /** The host's item-creation call: logged; creating the item itself is the host's business. */
    method CreateOwnedItem(itemData: ItemData)
      modifies this
      ensures calls == old(calls) + [CreateItemCall(itemData)]
      ensures name == old(name) && basename == old(basename) && actorType == old(actorType)
      ensures clearance == old(clearance) && sector == old(sector) && cloneValue == old(cloneValue)
    {
      calls := calls + [CreateItemCall(itemData)];
    }
  }

  /** An element's `classList`. */
  class ClassList {
    var tokens: set<string>

    constructor (tokens: set<string>)
      ensures this.tokens == tokens
    {
      this.tokens := tokens;
    }

    method Add(token: string)
      modifies this
      ensures tokens == old(tokens) + {token}
    {
      tokens := tokens + {token};
    }

    method Remove(token: string)
      modifies this
      ensures tokens == old(tokens) - {token}
    {
      tokens := tokens - {token};
    }
  }

  /** `sheetData.actor`: the view-model fields the classifier assigns. */
  class ActorView {
    var gearPersonal: seq<OwnedItem>
    var gearAssigned: seq<OwnedItem>
    var gearTreasonous: seq<OwnedItem>
    var gearUnassigned: seq<OwnedItem>
    var skill: seq<OwnedItem>

    constructor ()
      ensures gearPersonal == gearAssigned == gearTreasonous == gearUnassigned == skill == []
    {
      gearPersonal, gearAssigned, gearTreasonous, gearUnassigned, skill := [], [], [], [], [];
    }

    /** The field that holds bucket `b`. */
    function Field(b: Bucket): (s: seq<OwnedItem>)
      reads this
    {
      match b
      case GearPersonal => gearPersonal
      case GearAssigned => gearAssigned
      case GearTreasonous => gearTreasonous
      case GearUnassigned => gearUnassigned
      case Skills => skill
    }
  }

  /** The five arrays the classifier's loop fills: `gear.personal`, `.assigned`, `.treasonous`, `.unassigned` and `skill`. */
  datatype Containers = Containers(personalGear: seq<OwnedItem>, assignedGear: seq<OwnedItem>, treasonousGear: seq<OwnedItem>,
                                   unassignedGear: seq<OwnedItem>, skills: seq<OwnedItem>)

  /** One step of the classifier's loop: push the item onto the container its types select, if any. */
  method Allocate(it: OwnedItem, c: Containers) returns (c': Containers)
    ensures c'.personalGear == c.personalGear + if BucketOf(it) == Some(GearPersonal) then [it] else []
    ensures c'.assignedGear == c.assignedGear + if BucketOf(it) == Some(GearAssigned) then [it] else []
    ensures c'.treasonousGear == c.treasonousGear + if BucketOf(it) == Some(GearTreasonous) then [it] else []
    ensures c'.unassignedGear == c.unassignedGear + if BucketOf(it) == Some(GearUnassigned) then [it] else []
    ensures c'.skills == c.skills + if BucketOf(it) == Some(Skills) then [it] else []
  {
    c' := c;
    if it.itemType == "item" || it.itemType == "weapon" {
      if it.gearType == Some("personal") {
        c' := c'.(personalGear := c.personalGear + [it]);
      } else if it.gearType == Some("assigned") {
        c' := c'.(assignedGear := c.assignedGear + [it]);
      } else if it.gearType == Some("treasonous") {
        c' := c'.(treasonousGear := c.treasonousGear + [it]);
      } else {
        // Corrupted or unknown gear data is kept here to be fixed by hand.
        c' := c'.(unassignedGear := c.unassignedGear + [it]);
      }
    } else if it.itemType == "skill" {
      c' := c'.(skills := c.skills + [it]);
    }
  }

  /** The five containers hold the five buckets of `items`. */
  predicate HoldsBuckets(items: seq<OwnedItem>, c: Containers) {
    && c.personalGear == InBucket(GearPersonal, items)
    && c.assignedGear == InBucket(GearAssigned, items)
    && c.treasonousGear == InBucket(GearTreasonous, items)
    && c.unassignedGear == InBucket(GearUnassigned, items)
    && c.skills == InBucket(Skills, items)
  }

  /** Classifying one more item keeps the containers equal to the buckets. */
  lemma HoldsBucketsSnoc(items: seq<OwnedItem>, x: OwnedItem, c: Containers, c': Containers)
    requires HoldsBuckets(items, c)
    requires c'.personalGear == c.personalGear + (if BucketOf(x) == Some(GearPersonal) then [x] else [])
    requires c'.assignedGear == c.assignedGear + (if BucketOf(x) == Some(GearAssigned) then [x] else [])
    requires c'.treasonousGear == c.treasonousGear + (if BucketOf(x) == Some(GearTreasonous) then [x] else [])
    requires c'.unassignedGear == c.unassignedGear + (if BucketOf(x) == Some(GearUnassigned) then [x] else [])
    requires c'.skills == c.skills + (if BucketOf(x) == Some(Skills) then [x] else [])
    ensures HoldsBuckets(items + [x], c')
  {
    BucketSnoc(GearPersonal, items, x);
    BucketSnoc(GearAssigned, items, x);
    BucketSnoc(GearTreasonous, items, x);
    BucketSnoc(GearUnassigned, items, x);
    BucketSnoc(Skills, items, x);
  }

  /**
   * The loop of `_prepareCharacterItems`: default each item's image in place and push it onto
   * the container its types select.
   */
  method ClassifyItems(items: seq<OwnedItem>, defaultToken: string) returns (c: Containers)
    modifies items
    ensures HoldsBuckets(items, c)
    ensures forall k :: 0 <= k < |items| ==> items[k].img == DisplayImg(old(items[k].img), defaultToken)
  {
    c := Containers([], [], [], [], []);
    for i := 0 to |items|
      invariant HoldsBuckets(items[..i], c)
      invariant forall k :: 0 <= k < i ==> items[k].img == DisplayImg(old(items[k].img), defaultToken)
      invariant forall k :: i <= k < |items| ==>
                  items[k].img == old(items[k].img) || items[k].img == DisplayImg(old(items[k].img), defaultToken)
    {
      var it := items[i];
      DisplayImgIdempotent(old(it.img), defaultToken);
      it.DefaultImage(defaultToken);
      ghost var before := c;
      c := Allocate(it, c);
      assert items[..i + 1] == items[..i] + [it];
      HoldsBucketsSnoc(items[..i], it, before, c);
    }
    assert items[..|items|] == items;
  }

  /** The data `getData` hands to the template: the actor view and the owned items. */
  class SheetData {
    const actor: ActorView
    const items: seq<OwnedItem>

    constructor (actor: ActorView, items: seq<OwnedItem>)
      ensures this.actor == actor && this.items == items
    {
      this.actor := actor;
      this.items := items;
    }
  }

  /**
   * The sheet. The host's configuration, localisation formatter, `String.capitalize` and
   * `DEFAULT_TOKEN` are injected; `window` and `scrollbar` are the sheet element's first
   * two children.
   */
  class ParanoiaXPActorSheet {
    const actor: Actor
    const window: ClassList
    const scrollbar: ClassList
    const config: Config
    const format: Option<string> -> string
    const capitalize: string -> string
    const defaultToken: string

    predicate Valid() {
      window != scrollbar
    }

    constructor (actor: Actor, window: ClassList, scrollbar: ClassList, config: Config,
                 format: Option<string> -> string, capitalize: string -> string, defaultToken: string)
      requires window != scrollbar
      ensures Valid()
      ensures this.actor == actor && this.window == window && this.scrollbar == scrollbar && this.config == config
      ensures this.format == format && this.capitalize == capitalize && this.defaultToken == defaultToken
    {
      this.actor := actor;
      this.window := window;
      this.scrollbar := scrollbar;
      this.config := config;
      this.format := format;
      this.capitalize := capitalize;
      this.defaultToken := defaultToken;
    }

    /** The item-preparation step of `getData`, which runs only for character actors. */
    method GetData(sheetData: SheetData)
      modifies sheetData.actor, sheetData.items
      ensures actor.actorType == "character" ==>
                (forall b :: sheetData.actor.Field(b) == InBucket(b, sheetData.items))
                && forall k :: 0 <= k < |sheetData.items| ==>
                     sheetData.items[k].img == DisplayImg(old(sheetData.items[k].img), defaultToken)
      ensures actor.actorType != "character" ==>
                unchanged(sheetData.actor) && forall k :: 0 <= k < |sheetData.items| ==> unchanged(sheetData.items[k])
    {
      if actor.actorType == "character" {
        PrepareCharacterItems(sheetData);
      }
    }

    /**
     * `_prepareCharacterItems`: default each image, sort the items into the five buckets and
     * store them on the actor view, replacing what was there.
     */
    method PrepareCharacterItems(sheetData: SheetData)
      modifies sheetData.actor, sheetData.items
      ensures forall b :: sheetData.actor.Field(b) == InBucket(b, sheetData.items)
      ensures forall k :: 0 <= k < |sheetData.items| ==>
                sheetData.items[k].img == DisplayImg(old(sheetData.items[k].img), defaultToken)
    {
      var actorData := sheetData.actor;
      var c := ClassifyItems(sheetData.items, defaultToken);
      actorData.gearPersonal := c.personalGear;
      actorData.gearAssigned := c.assignedGear;
      actorData.gearTreasonous := c.treasonousGear;
      actorData.gearUnassigned := c.unassignedGear;
      actorData.skill := c.skills;
    }

    /** Rendering twice: the second run leaves the same buckets and images as the first. */
    method PrepareCharacterItemsTwice(sheetData: SheetData)
      modifies sheetData.actor, sheetData.items
      ensures forall b :: sheetData.actor.Field(b) == InBucket(b, sheetData.items)
      ensures forall k :: 0 <= k < |sheetData.items| ==>
                sheetData.items[k].img == DisplayImg(old(sheetData.items[k].img), defaultToken)
    {
      PrepareCharacterItems(sheetData);
      PrepareCharacterItems(sheetData);
      forall k | 0 <= k < |sheetData.items|
        ensures sheetData.items[k].img == DisplayImg(old(sheetData.items[k].img), defaultToken)
      {
        DisplayImgIdempotent(old(sheetData.items[k].img), defaultToken);
      }
    }

    /**
     * `_onItemCreate`: build the item data from the control's dataset and ask the host to
     * create it. Without a `type` in the dataset nothing is created.
     */
    method OnItemCreate(dataset: map<string, string>) returns (created: Option<ItemData>)
      modifies actor
      ensures created == NewItemData(dataset, capitalize)
      ensures actor.calls == old(actor.calls) + (if created.Some? then [CreateItemCall(created.value)] else [])
      ensures actor.name == old(actor.name) && actor.basename == old(actor.basename)
      ensures actor.actorType == old(actor.actorType) && actor.clearance == old(actor.clearance)
      ensures actor.sector == old(actor.sector) && actor.cloneValue == old(actor.cloneValue)
    {
      if "type" !in dataset {
        // Capitalising an undefined type throws a TypeError before any item is requested.
        return None;
      }
      var itemType := dataset["type"];
      var data := dataset;
      var name := "New " + capitalize(itemType);
      var itemData := ItemData(name, itemType, data);
      itemData := itemData.(data := itemData.data - {"type"});
      actor.CreateOwnedItem(itemData);
      created := Some(itemData);
    }

    /** The name `_onNameChange` composes from the actor's fields as they are now. */
    function NameFor(basename: Option<string>, name: string, clearance: string, sector: string, cloneValue: int): (r: string)
    {
      ComposedName(BaseName(basename, name), format(Lookup(config.securityLevelsShort, clearance)), sector, cloneValue)
    }

    /**
     * `_onNameChange`: seed `basename` from the current name when it is missing (persisting the
     * seed first), compose the name, restyle the security classes, then persist the name.
     */
    method OnNameChange()
      requires Valid()
      modifies actor, window, scrollbar
      ensures actor.calls == old(actor.calls)
                + (if old(actor.basename).None? then [UpdateCall(SetBasename(old(actor.name)))] else [])
                + [UpdateCall(SetName(NameFor(old(actor.basename), old(actor.name), old(actor.clearance), old(actor.sector), old(actor.cloneValue))))]
      ensures actor.name == NameFor(old(actor.basename), old(actor.name), old(actor.clearance), old(actor.sector), old(actor.cloneValue))
      ensures actor.basename == Some(BaseName(old(actor.basename), old(actor.name)))
      ensures actor.actorType == old(actor.actorType) && actor.clearance == old(actor.clearance)
      ensures actor.sector == old(actor.sector) && actor.cloneValue == old(actor.cloneValue)
      ensures window.tokens == WindowAfter(old(window.tokens), config.securityLevelsCss, actor.clearance)
      ensures scrollbar.tokens == ScrollbarAfter(old(scrollbar.tokens), config.securityLevelsCss, actor.clearance)
    {
      var name := actor.basename;
      var root: string;
      if name.None? {
        actor.Update(SetBasename(actor.name));
        root := actor.name;
      } else {
        root := name.value;
      }
      var composed := root + "-" + format(Lookup(config.securityLevelsShort, actor.clearance));
      composed := composed + "-" + actor.sector + "-" + DecimalString(actor.cloneValue);
      var _ := SetSecurityUI();
      actor.Update(SetName(composed));
    }

    /** Recomputing the name a second time keeps it and never re-derives `basename` from the composed name. */
    method OnNameChangeTwice()
      requires Valid()
      modifies actor, window, scrollbar
      ensures actor.name == NameFor(old(actor.basename), old(actor.name), old(actor.clearance), old(actor.sector), old(actor.cloneValue))
      ensures actor.basename == Some(BaseName(old(actor.basename), old(actor.name)))
      ensures actor.calls == old(actor.calls)
                + (if old(actor.basename).None? then [UpdateCall(SetBasename(old(actor.name)))] else [])
                + [UpdateCall(SetName(actor.name)), UpdateCall(SetName(actor.name))]
    {
      OnNameChange();
      OnNameChange();
    }

    /**
     * `_setSecurityUI`: remove every mapped class from the window and every mapped `_sb` class
     * from the scrollbar, add the clearance's class and its `_sb` variant, and return the class.
     */
    method SetSecurityUI() returns (secClass: Option<string>)
      requires Valid()
      modifies window, scrollbar
      ensures secClass == Lookup(config.securityLevelsCss, actor.clearance)
      ensures window.tokens == WindowAfter(old(window.tokens), config.securityLevelsCss, actor.clearance)
      ensures scrollbar.tokens == ScrollbarAfter(old(scrollbar.tokens), config.securityLevelsCss, actor.clearance)
    {
      var css := config.securityLevelsCss;
      secClass := Lookup(css, actor.clearance);
      var pending := css.Keys;
      ghost var removed: set<string> := {};
      while pending != {}
        invariant pending <= css.Keys
        invariant removed == set k | k in css.Keys - pending :: css[k]
        invariant window.tokens == old(window.tokens) - removed
        invariant scrollbar.tokens == old(scrollbar.tokens) - set v | v in removed :: SbClass(v)
        decreases pending
      {
        var level :| level in pending;
        var value := css[level];
        window.Remove(value);
        scrollbar.Remove(SbClass(value));
        removed := removed + {value};
        pending := pending - {level};
      }
      assert removed == css.Values;
      window.Add(JsString(secClass));
      scrollbar.Add(SbClass(JsString(secClass)));
    }
  }
}
