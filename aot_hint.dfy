/**
 * The part of the ahead-of-time hints registry that the web application type
 * registrar uses: the reflection hints, seen as the sequence of type names
 * registered so far, in registration order.
 */
module AotHint {

  /** The hints registry that a registrar is handed and updates in place. */
  class RuntimeHints {
    /** Every `registerType` call made on the reflection hints, oldest first. */
    var reflectionTypes: seq<string>

    constructor ()
      ensures reflectionTypes == []
    {
      reflectionTypes := [];
    }

    /**
     * The set of types that carry a reflection hint. The real registry merges
     * repeated registrations of one type, so this set is what it retains.
     */
    function RegisteredTypes(): set<string>
      reads this
    {
      set n | n in reflectionTypes
    }

    /** Registers a reflection hint for the type with the given name. */
    method RegisterType(typeName: string)
      modifies this
      ensures reflectionTypes == old(reflectionTypes) + [typeName]
      ensures RegisteredTypes() == old(RegisteredTypes()) + {typeName}
    {
      reflectionTypes := reflectionTypes + [typeName];
      assert forall n :: n in reflectionTypes <==> n in old(reflectionTypes) || n == typeName;
    }
  }
}
