/**
 * Shared vocabulary of the console model (src/emuconst.h): the console
 * regions, and an optional value for reads whose result the C++ code leaves
 * undefined (a pointer read past a loaded image, a null `char*`).
 */
module Console {

  datatype Option<T> = None | Some(value: T)

  /** `ConsoleRegion`: JP = 0, US = 1, EU = 2. */
  datatype Region = JP | US | EU
}
