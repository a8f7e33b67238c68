/**
 * `PostmanVar::postmanToFaker`: the PHP expression a generated API test
 * uses for a parameter, chosen from the parameter's type and the value the
 * collection reader resolved for it (`param_value`).
 */
module PostmanVars {
  import opened Wrappers
  import opened Strings
  import opened JsonValues
  import Params

  /** A fake uploaded image, for `random_image_file`. */
  const ImageExpression := ['\\'] + "Illuminate\\Http\\UploadedFile::fake()->image('image.jpg')"

  /** Postman's dynamic variables that have a Faker counterpart, and the expression each maps to. */
  function FakerFor(name: Json): Option<string> {
    if LooselyIs(name, "$guid") then Some("$faker->uuid")
    else if LooselyIs(name, "$randomFirstName") then Some("$faker->firstName")
    else if LooselyIs(name, "$randomLastName") then Some("$faker->lastName")
    else if LooselyIs(name, "$randomExampleEmail") || LooselyIs(name, "$randomEmail") then Some("$faker->safeEmail")
    else if LooselyIs(name, "$randomPhoneNumber") then Some("$faker->phoneNumber")
    else if LooselyIs(name, "$randomPhrase") then Some("$faker->sentence")
    else if LooselyIs(name, "random_image_file") then Some(ImageExpression)
    else None
  }

  /** What the fallback strips from the left: PHP's default trim set and `$`. */
  const LiteralTrim: set<char> := DefaultTrim + {'$'}

  /** The fallback: the value as a single-quoted PHP literal, left-trimmed and not escaped. */
  function Quoted(v: Json): string {
    "'" + TrimLeft(Text(v), LiteralTrim) + "'"
  }

  /** `postmanToFaker($param)` */
  function PostmanToFaker(param: Fields): string {
    var value := Get(param, "param_value").GetOr(Null);
    if LooselyIs(Get(param, "type").GetOr(Null), "boolean") then
      if Truthy(value) then "true" else "false"
    else
      match FakerFor(value)
      case Some(expression) => expression
      case None => Quoted(value)
  }

  /** A boolean parameter is written as `true` or `false` by its value's truthiness, whatever that value names. */
  lemma BooleanWins(param: Fields)
    requires Get(param, "type") == Some(Str("boolean"))
    ensures PostmanToFaker(param) == if Truthy(Get(param, "param_value").GetOr(Null)) then "true" else "false"
  {
  }

  /** Both e-mail variables give the same safe e-mail address. */
  lemma EmailsAgree(param: Fields)
    requires !LooselyIs(Get(param, "type").GetOr(Null), "boolean")
    requires Get(param, "param_value") == Some(Str("$randomExampleEmail")) || Get(param, "param_value") == Some(Str("$randomEmail"))
    ensures PostmanToFaker(param) == "$faker->safeEmail"
  {
  }

  /**
   * The generated expression is a quoted literal exactly when the parameter
   * is not boolean and its value names no known variable.
   */
  lemma QuotedIff(param: Fields)
    ensures var r := PostmanToFaker(param);
      |r| >= 1 && (r[0] == '\'' <==>
        !LooselyIs(Get(param, "type").GetOr(Null), "boolean") && FakerFor(Get(param, "param_value").GetOr(Null)).None?)
  {
    var value := Get(param, "param_value").GetOr(Null);
    if LooselyIs(Get(param, "type").GetOr(Null), "boolean") {
      assert "true"[0] == 't' && "false"[0] == 'f';
    } else if FakerFor(value).Some? {
      FakerForShape(value);
    }
  }

  /** Every known expression starts with `$` or a backslash, never with a quote. */
  lemma FakerForShape(v: Json)
    requires FakerFor(v).Some?
    ensures |FakerFor(v).value| >= 1 && FakerFor(v).value[0] in {'$', '\\'}
  {
    var e := FakerFor(v).value;
    if LooselyIs(v, "$guid") {
      assert e == "$faker->uuid";
    } else if LooselyIs(v, "$randomFirstName") {
      assert e == "$faker->firstName";
    } else if LooselyIs(v, "$randomLastName") {
      assert e == "$faker->lastName";
    } else if LooselyIs(v, "$randomExampleEmail") || LooselyIs(v, "$randomEmail") {
      assert e == "$faker->safeEmail";
    } else if LooselyIs(v, "$randomPhoneNumber") {
      assert e == "$faker->phoneNumber";
    } else if LooselyIs(v, "$randomPhrase") {
      assert e == "$faker->sentence";
    } else {
      assert e == ImageExpression;
    }
  }

  /**
   * The literal is not escaped: a value with nothing to trim at its left,
   * quotes included, is written between two quotes exactly as it is.
   */
  lemma NoEscaping(param: Fields, s: string)
    requires !LooselyIs(Get(param, "type").GetOr(Null), "boolean")
    requires Get(param, "param_value") == Some(Str(s)) && FakerFor(Str(s)).None?
    requires s == [] || s[0] !in LiteralTrim
    ensures PostmanToFaker(param) == "'" + s + "'"
  {
  }

  /** The left end is trimmed of whitespace and `$`; the right end is kept. */
  lemma LeftTrimmedOnly(param: Fields, pre: string, s: string)
    requires !LooselyIs(Get(param, "type").GetOr(Null), "boolean")
    requires Get(param, "param_value") == Some(Str(pre + s)) && FakerFor(Str(pre + s)).None?
    requires forall i :: 0 <= i < |pre| ==> pre[i] in LiteralTrim
    requires s == [] || s[0] !in LiteralTrim
    ensures PostmanToFaker(param) == "'" + s + "'"
  {
    if s == [] {
      Params.TrimLeftAll(pre + s, LiteralTrim);
    } else {
      Params.TrimLeftPrefix(pre, s, LiteralTrim);
    }
  }
}
