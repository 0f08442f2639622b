/**
 ServiceImpl of src/ui/context.cpp as an object. It edits the shared context and has the shared backend adjust; every
 method is proved to be the operation of module Forms.
 */
module FormObjects {
  import opened Settings
  import opened Handles
  import opened EngineFiles
  import opened ContextObjects
  import Engines
  import Backends
  import Stores = Store
  import Forms

  /** The connection to the backend, with the backend behind it. */
  class Slipway {
    var backend: Backends.Backend

    constructor (backend: Backends.Backend)
      ensures this.backend == backend
    {
      this.backend := backend;
    }

    /** Backend::Adjust(id) on the files as they are; `thrown` if the engine could not load them. */
    method Adjust(home: HomeDir, id: Handle, env: Engines.Env) returns (thrown: bool)
      modifies this
      ensures backend == Backends.Served(old(backend), Backends.Only(Engines.Adjust, id), home.disk, env)
      ensures thrown <==> LoadOne(home.disk, id).Err?
    {
      hide LoadOne;
      thrown := LoadOne(home.disk, id).Err?;
      backend := Backends.Served(backend, Backends.Only(Engines.Adjust, id), home.disk, env);
    }
  }

  class ServiceForm {
    var edit: Service      // Local, Name, Pier, …
    var origin: Service    // m_origin

    constructor (origin: Service)
      ensures edit == this.origin == origin
    {
      this.edit, this.origin := origin, origin;
    }

    function Value(): Forms.Form
      reads this
    {
      Forms.Form(edit, origin)
    }

    function World(context: Context, slipway: Slipway): Forms.World
      reads context, context.home, slipway
    {
      Forms.World(context.home.Value(), context.Value(), slipway.backend)
    }

    function Turned(context: Context, slipway: Slipway): Forms.Turned
      reads this, context, context.home, slipway
    {
      Forms.Turned(World(context, slipway), Value())
    }

    /** Drops what has been edited. */
    method Revert()
      modifies this`edit
      ensures edit == origin && !Forms.Dirty(Value())
    {
      edit := origin;
    }

    /** The deletion that Store and Purge begin with. */
    method Delete(context: Context) returns (outcome: Stores.Outcome)
      modifies context, context.home
      ensures Stores.Answer(context.home.Value(), context.Value(), outcome)
        == Forms.Deleted(old(Forms.World(context.home.Value(), context.Value(), Backends.START)), Value())
    {
      hide Stores.Exec;
      outcome := Stores.Nothing;
      if edit.local {
        if origin.name != "" { outcome := context.DelExportService(origin.name); }
      } else if origin.name != "" && origin.pier != "" {
        outcome := context.DelImportService(origin.pier, origin.name);
      }
    }

    method Place(context: Context) returns (pier: string)
      ensures pier == Forms.Target(context.Value(), Value())
    {
      pier := if edit.local then context.config.pier else edit.pier;
    }

    method Store(context: Context, slipway: Slipway, first: Engines.Env, second: Engines.Env)
      modifies this, context, context.home, slipway
      ensures Turned(context, slipway) == Forms.StoreForm(old(World(context, slipway)), old(Value()), first, second)
    {
      hide Stores.Exec, Backends.Served, LoadOne;
      if edit.(local := origin.local) == origin { return; }
      var actual := edit;

      var outcome := Delete(context);
      if Forms.Throws(outcome) { return; }
      if edit.local {
        outcome := context.AddExportService(actual);
      } else {
        outcome := context.AddImportService(actual);
      }
      if Forms.Throws(outcome) { return; }

      var pier := Place(context);
      if origin.name != actual.name {
        var thrown := slipway.Adjust(context.home, Handle(pier, origin.name), first);
        if thrown { return; }
      }
      origin := actual;
      var _ := slipway.Adjust(context.home, Handle(pier, edit.name), second);
    }

    method Purge(context: Context, slipway: Slipway, env: Engines.Env) returns (outcome: Stores.Outcome)
      modifies this, context, context.home, slipway
      ensures Turned(context, slipway) == Forms.PurgeForm(old(World(context, slipway)), old(Value()), env)
      ensures Forms.Throws(outcome) ==> slipway.backend == old(slipway.backend) && Value() == old(Value())
    {
      hide Stores.Exec, Backends.Served, LoadOne;
      outcome := Delete(context);
      if Forms.Throws(outcome) { return; }
      var pier := Place(context);
      var _ := slipway.Adjust(context.home, Handle(pier, edit.name), env);
      origin := EMPTY_SERVICE;
    }
  }
}
