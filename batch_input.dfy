/**
 * `BatchInput`: the currency of the provider lookup, a source type paired
 * with the module item that is to be filled from values of that type.
 */
module BatchInputs {
  import opened Runtime

  /** A `java.lang.reflect.Type`: a plain class, or a type that is not one (such as `List<File>`). */
  datatype JavaType = ClassType(cls: ClassName) | OtherType(typeName: string)

  /**
   * Both fields are final and there are no setters, so a `BatchInput` is a
   * value: `sourceType()` and `moduleItem()` are its two fields.
   */
  datatype BatchInput = BatchInput(sourceType: JavaType, moduleItem: ModuleItem)

  /** `new BatchInput(Class<?> srcClass, ModuleItem<?> destItem)`. */
  function OfClass(srcClass: ClassName, destItem: ModuleItem): (r: BatchInput)
    ensures r.sourceType == ClassType(srcClass) && r.moduleItem == destItem
  {
    BatchInput(ClassType(srcClass), destItem)
  }

  /** `new BatchInput(Type srcType, ModuleItem<?> destItem)`. */
  function OfType(srcType: JavaType, destItem: ModuleItem): (r: BatchInput)
    ensures r.sourceType == srcType && r.moduleItem == destItem
  {
    BatchInput(srcType, destItem)
  }

  /** The two constructors build the same pair from a class and an item. */
  lemma ConstructorsAgree(srcClass: ClassName, destItem: ModuleItem)
    ensures OfClass(srcClass, destItem) == OfType(ClassType(srcClass), destItem)
  {
  }
}
