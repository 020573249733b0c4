/** Property names that JavaScript objects inherit. A read by such a name finds the
    inherited member, and a named property of that name is hidden behind it. */
module JsObjects {
  /** The properties every object inherits from `Object.prototype`. */
  const ObjectPrototypeMembers: set<string> := {
    "constructor", "hasOwnProperty", "isPrototypeOf", "propertyIsEnumerable",
    "toLocaleString", "toString", "valueOf", "__proto__",
    "__defineGetter__", "__defineSetter__", "__lookupGetter__", "__lookupSetter__"
  }

  /** The properties `localStorage` inherits from `Storage.prototype`. */
  const StoragePrototypeMembers: set<string> := {
    "length", "key", "getItem", "setItem", "removeItem", "clear", "constructor"
  }
}
