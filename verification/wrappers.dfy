/** Optional values: `None` stands for a JavaScript `undefined`, or for the
    empty initial `{}` of the chart data. */
module Wrappers {

  datatype Option<+T> = None | Some(value: T)

}
