/** The two pieces of browser state the client writes: `localStorage`, a
    string-to-string dictionary shared by every context, and the class list
    of the document's root element. */
module Browser {
  import opened Common

  class Storage {
    var entries: map<string, string>

    constructor (initial: map<string, string>)
      ensures entries == initial
    {
      entries := initial;
    }

    /** `getItem`: `null` for a key that was never set or was removed. */
    function GetItem(key: string): (r: Option<string>)
      reads this
      ensures r.Some? <==> key in entries
      ensures r.Some? ==> r.value == entries[key]
    {
      if key in entries then Some(entries[key]) else None
    }

    method SetItem(key: string, value: string)
      modifies this
      ensures entries == old(entries)[key := value]
    {
      entries := entries[key := value];
    }

    method RemoveItem(key: string)
      modifies this
      ensures entries == old(entries) - {key}
    {
      entries := entries - {key};
    }
  }

  class ClassList {
    var names: set<string>

    constructor (initial: set<string>)
      ensures names == initial
    {
      names := initial;
    }

    /** `classList.toggle(name, force)`: present afterwards exactly when
        `force` holds; every other class is left as it was. */
    method Toggle(name: string, force: bool)
      modifies this
      ensures name in names <==> force
      ensures names - {name} == old(names) - {name}
    {
      if force {
        names := names + {name};
      } else {
        names := names - {name};
      }
    }
  }
}
