/** The parameter file, seen through the typed getters the data-file layer calls
    (`get`, `getint`, `getfloat`, `getboolean`). An entry is stored as the value its
    text reads as: a number as IntV or RealV, a boolean word as BoolV, other text as StrV. */
module Params {
  import opened Wrappers
  import opened Errors

  datatype Value = IntV(i: int) | RealV(r: real) | StrV(s: string) | BoolV(b: bool)

  type Config = map<(string, string), Value>

  /** `params.get(section, key)`: the raw entry */
  function Get(cfg: Config, section: string, key: string): Result<Value, Error> {
    if (section, key) in cfg then Success(cfg[(section, key)]) else Failure(NoOption(section, key))
  }

  /** `params.getint(section, key)` */
  function GetInt(cfg: Config, section: string, key: string): Result<int, Error> {
    var v :- Get(cfg, section, key);
    match v
    case IntV(i) => Success(i)
    case _ => Failure(BadValue(section, key, "int"))
  }

  /** `params.getfloat(section, key)`: an integer entry reads as a float too */
  function GetFloat(cfg: Config, section: string, key: string): Result<real, Error> {
    var v :- Get(cfg, section, key);
    match v
    case IntV(i) => Success(i as real)
    case RealV(r) => Success(r)
    case _ => Failure(BadValue(section, key, "float"))
  }

  /** `params.getboolean(section, key)`: besides the boolean words, "1" and "0" are accepted */
  function GetBool(cfg: Config, section: string, key: string): Result<bool, Error> {
    var v :- Get(cfg, section, key);
    match v
    case BoolV(b) => Success(b)
    case IntV(i) =>
      if i == 1 then Success(true)
      else if i == 0 then Success(false)
      else Failure(BadValue(section, key, "bool"))
    case _ => Failure(BadValue(section, key, "bool"))
  }

  /** Python's `float(value)` on the raw text of an entry */
  function ToFloat(v: Value): Option<real> {
    match v
    case IntV(i) => Some(i as real)
    case RealV(r) => Some(r)
    case _ => None
  }
}
