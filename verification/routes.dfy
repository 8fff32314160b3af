/** Route values: what a router's stack and modal slots hold. */
module Routes {

  /** `RouterDebugRoute.key`, which is `String(describing: Self.self)`. */
  const DebugRouteKey: string := "RouterDebugRoute"

  /**
   * A route value. `FeatureA` and `FeatureB` are the two cases of the debug route
   * family `RouterDebugRoute`; its `id` is the first component whatever the previous
   * id and the level are. `Screen` stands for a value of any other route family,
   * which the registry treats only through its family key and its `id`.
   */
  datatype Route =
    | FeatureA(id: string, previousId: string, level: int)
    | FeatureB(id: string, previousId: string, level: int)
    | Screen(family: string, id: string)
  {
    /** The key of the route family this value belongs to (`Routes.key`). */
    function Family(): string {
      if Screen? then family else DebugRouteKey
    }
  }
}
