/**
 * The attribute registry of lib/attributes-manager.js: a dictionary from
 * attribute names to handler functions, with `set`, `remove` and `validate`.
 */
module Attributes {
  import opened Wrappers
  import opened Js

  /**
   * An attribute handler: a function object with its `name` property and
   * what calling it with a context does, either returning a value (here its
   * truthiness) or throwing.
   */
  class Handler {
    const name: string
    const call: string -> Outcome<bool>

    constructor (name: string, call: string -> Outcome<bool>)
      ensures this.name == name && this.call == call
    {
      this.name := name;
      this.call := call;
    }
  }

  /** An argument of `set`, `remove` or `validate`: a string, a function, or anything else. */
  datatype Arg = Text(text: string) | Function(handler: Handler) | Other

  const NotAFunction := "Attribute handler should be a function"
  const Anonymous := "Attribute cannot be anonymous or empty"
  const NotANameOrFunction := "Attribute must be a string or a function"
  const NotAString := "Attribute should be a string"
  const EmptyName := "Attribute name cannot be empty"
  const UnknownPrefix := "Unknown attribute : "

  /**
   * What `set(attribute, handler)` registers: a function given first is its
   * own handler and is registered under its `name`; otherwise the handler
   * must be a function and the attribute a non-empty string.
   */
  function Registration(attribute: Arg, handler: Arg): (r: Result<(string, Handler), Error>)
    ensures r.Ok? <==>
      (attribute.Function? && attribute.handler.name != []) ||
      (attribute.Text? && attribute.text != [] && handler.Function?)
    ensures r.Ok? && attribute.Function? ==> r.value == (attribute.handler.name, attribute.handler)
    ensures r.Ok? && attribute.Text? ==> r.value == (attribute.text, handler.handler)
    ensures r.Err? ==>
      r.error == TypeError(if attribute.Function? || handler.Function? then Anonymous else NotAFunction)
  {
    var fn := if attribute.Function? then attribute else handler;
    var name := if attribute.Function? then Text(attribute.handler.name) else attribute;
    if !fn.Function? then Err(TypeError(NotAFunction))
    else if !name.Text? || name.text == [] then Err(TypeError(Anonymous))
    else Ok((name.text, fn.handler))
  }

  /** The dictionary without every name bound to `h`. */
  function Unbind(handlers: map<string, Handler>, h: Handler): map<string, Handler>
  {
    map k | k in handlers && handlers[k] != h :: handlers[k]
  }

  /**
   * `validate(attribute, context)` on a dictionary: the handler's result for
   * a registered name; `false` or an error for an unknown one, depending on
   * `ignoreMissing`.
   */
  function Validation(handlers: map<string, Handler>, ignoreMissing: bool, attribute: Arg,
                      context: string): (r: Result<bool, Error>)
    ensures !attribute.Text? ==> r == Err(TypeError(NotAString))
    ensures attribute == Text([]) ==> r == Err(TypeError(EmptyName))
    ensures attribute.Text? && attribute.text != [] && attribute.text !in handlers ==>
      r == if ignoreMissing then Ok(false) else Err(TypeError(UnknownPrefix + attribute.text))
    ensures attribute.Text? && attribute.text != [] && attribute.text in handlers ==>
      (r.Ok? <==> handlers[attribute.text].call(context).Returned?) &&
      (r.Ok? ==> r.value == handlers[attribute.text].call(context).value) &&
      (r.Err? ==> r.error == Rethrown(handlers[attribute.text].call(context)))
  {
    match attribute
    case Text(name) =>
      if name == [] then Err(TypeError(EmptyName))
      else if name !in handlers then
        (if ignoreMissing then Ok(false) else Err(TypeError(UnknownPrefix + name)))
      else
        (match handlers[name].call(context)
         case Returned(b) => Ok(b)
         case Threw => Err(Thrown)
         case ThrewPrimitive => Err(ThrownPrimitive))
    case _ => Err(TypeError(NotAString))
  }

  class AttributesManager {
    var attributes: map<string, Handler>
    const ignoreMissingAttributes: bool

    /** `options.ignoreMissingAttributes` when given, `true` otherwise; no attributes. */
    constructor (ignoreMissing: Option<bool>)
      ensures attributes == map[]
      ensures ignoreMissingAttributes == (ignoreMissing.None? || ignoreMissing.value)
    {
      attributes := map[];
      ignoreMissingAttributes := ignoreMissing.None? || ignoreMissing.value;
    }

    /** `set`: binds the registered name to the handler and returns the manager, or throws. */
    method Set(attribute: Arg, handler: Arg) returns (r: Result<AttributesManager, Error>)
      modifies this
      ensures Registration(attribute, handler).Ok? ==>
        r == Ok(this) &&
        attributes == old(attributes)[Registration(attribute, handler).value.0 :=
                                      Registration(attribute, handler).value.1]
      ensures Registration(attribute, handler).Err? ==>
        r == Err(Registration(attribute, handler).error) && attributes == old(attributes)
    {
      var reg := Registration(attribute, handler);
      if reg.Err? {
        return Err(reg.error);
      }
      attributes := attributes[reg.value.0 := reg.value.1];
      r := Ok(this);
    }

    /**
     * `remove`: a function is unbound from every name it is registered
     * under; a registered name is unbound; anything else throws.
     */
    method Remove(attribute: Arg) returns (r: Result<Option<Handler>, Error>)
      modifies this
      ensures attribute.Function? ==>
        attributes == Unbind(old(attributes), attribute.handler) &&
        r == Ok(if attribute.handler in old(attributes).Values then Some(attribute.handler) else None)
      ensures attribute.Text? && attribute.text in old(attributes) ==>
        attributes == old(attributes) - {attribute.text} && r == Ok(Some(old(attributes)[attribute.text]))
      ensures attribute.Other? || (attribute.Text? && attribute.text !in old(attributes)) ==>
        attributes == old(attributes) && r == Err(TypeError(NotANameOrFunction))
    {
      match attribute
      case Function(h) =>
        var names := attributes.Keys;
        var found: Option<Handler> := None;
        while names != {}
          invariant names <= old(attributes).Keys
          invariant attributes ==
            map k | k in old(attributes) && (k in names || old(attributes)[k] != h) :: old(attributes)[k]
          invariant found.None? ==> forall k :: k in old(attributes) && k !in names ==> old(attributes)[k] != h
          invariant found.Some? ==> found == Some(h) && h in old(attributes).Values
          decreases names
        {
          var name :| name in names;
          if attributes[name] == h {
            found := Some(h);
            attributes := attributes - {name};
          }
          names := names - {name};
        }
        r := Ok(found);
      case Text(name) =>
        if name in attributes {
          r := Ok(Some(attributes[name]));
          attributes := attributes - {name};
        } else {
          r := Err(TypeError(NotANameOrFunction));
        }
      case Other =>
        r := Err(TypeError(NotANameOrFunction));
    }

    /** `validate(attribute, context)` against the current dictionary. */
    function Validate(attribute: Arg, context: string): (r: Result<bool, Error>)
      reads this
      ensures r == Validation(attributes, ignoreMissingAttributes, attribute, context)
    {
      Validation(attributes, ignoreMissingAttributes, attribute, context)
    }
  }

  /** After a successful `set`, validating the registered name calls the registered handler. */
  lemma SetThenValidate(handlers: map<string, Handler>, ignoreMissing: bool, attribute: Arg, handler: Arg,
                        context: string)
    requires Registration(attribute, handler).Ok?
    ensures var (name, h) := Registration(attribute, handler).value;
      Validation(handlers[name := h], ignoreMissing, Text(name), context) ==
        (if h.call(context).Returned? then Ok(h.call(context).value) else Err(Rethrown(h.call(context))))
  {
  }

  /** After unbinding a function, no name validates through it: the names it held are unknown. */
  lemma UnbindForgets(handlers: map<string, Handler>, ignoreMissing: bool, h: Handler, name: string,
                      context: string)
    requires name != [] && name in handlers && handlers[name] == h
    ensures Validation(Unbind(handlers, h), ignoreMissing, Text(name), context) ==
      if ignoreMissing then Ok(false) else Err(TypeError(UnknownPrefix + name))
  {
  }

  /** A fresh manager with default options validates every non-empty name to `false`. */
  lemma DefaultValidatesFalse(name: string, context: string)
    requires name != []
    ensures Validation(map[], true, Text(name), context) == Ok(false)
  {
  }
}
