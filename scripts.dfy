/** Looking up the function a job runs: `load_script_func(module, name)`. */
module Scripts {
  import opened Values

  /** A Python callable, known by its `__name__`. */
  datatype Func = Func(name: string)

  /** A module's attributes by name. */
  type Namespace = map<string, Func>

  /** `load_script_func(module, name)`: module `scripts` is the application's
      script package; any other module name is looked up among the globals
      of the defining file, a ValueError when absent. The function is then
      `getattr(mod, name)`: a TypeError for a name that is no string and an
      AttributeError for a missing one. The handler meant to turn a missing
      function into a ValueError catches KeyError, which `getattr` never
      raises, so that ValueError never happens. */
  function LoadScriptFunc(modName: string, name: Value, scripts: Namespace, globals: map<string, Namespace>): (r: Result<Func>)
    ensures modName == "scripts" && name.VStr? && name.s in scripts ==> r == Ok(scripts[name.s])
    ensures modName != "scripts" && modName !in globals ==> r == Err(ModuleNotImported(modName))
    ensures modName != "scripts" && modName in globals && name.VStr? && name.s in globals[modName] ==>
      r == Ok(globals[modName][name.s])
    ensures !name.VStr? && (modName == "scripts" || modName in globals) ==> r.Err? && ClassOf(r.error) == TypeErrorClass
    ensures r.Err? ==> ClassOf(r.error) in {ValueErrorClass, TypeErrorClass, AttributeErrorClass}
    ensures r.Err? && ClassOf(r.error) == ValueErrorClass ==> modName != "scripts" && modName !in globals
  {
    var mod :- if modName == "scripts" then Ok(scripts)
      else if modName in globals then Ok(globals[modName])
      else Err(ModuleNotImported(modName));
    if !name.VStr? then Err(BadArguments("attribute name must be string"))
    else if name.s in mod then Ok(mod[name.s])
    else Err(NoAttribute("module has no attribute " + name.s))
  }

  /** A registered function name is found in `scripts` whatever the other
      modules hold, and an unregistered one is an AttributeError. */
  lemma ScriptsLookup(name: string, scripts: Namespace, globals: map<string, Namespace>)
    ensures name in scripts ==> LoadScriptFunc("scripts", VStr(name), scripts, globals) == Ok(scripts[name])
    ensures name !in scripts ==>
      (LoadScriptFunc("scripts", VStr(name), scripts, globals).Err? &&
       ClassOf(LoadScriptFunc("scripts", VStr(name), scripts, globals).error) == AttributeErrorClass)
  {
  }
}
