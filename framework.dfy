/**
 * Framework and library helpers the pipeline calls but does not define.
 * They are passed around as one record of total functions, so every
 * property proved here holds whatever these helpers compute.
 */
module Framework {
  import opened Wrappers
  import opened JsonValues

  datatype Helpers = Helpers(
    /** `Str::snake` */
    snake: string -> string,
    /** `Str::singular` */
    singular: string -> string,
    /** `Str::studly` */
    studly: string -> string,
    /** `Text::reverseSnake` */
    reverseSnake: string -> string,
    /** `parse_url($url, PHP_URL_HOST)`; None is PHP's null. */
    urlHost: string -> Option<string>,
    /** `parse_url($url, PHP_URL_SCHEME)`; None is PHP's null. */
    urlScheme: string -> Option<string>,
    /** `Response::$statusTexts[$code]`; None when the code is not in the table. */
    statusText: string -> Option<string>,
    /** `(new ReflectionClass($class))->getShortName()`; None when the class does not exist. */
    shortClassName: string -> Option<string>,
    /** `json_encode($value)`; None is the `false` it returns when a value cannot be encoded. */
    jsonEncode: Json -> Option<string>,
    /** `json_encode($value, JSON_PRETTY_PRINT)`; None is the `false` it returns on failure. */
    prettyJson: Json -> Option<string>,
    /** `Yaml::dump($value, ...)`; None is the exception it throws on failure. */
    yamlDump: Json -> Option<string>
  )
}
