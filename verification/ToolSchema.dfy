/**
  Tool parameter schemas change case on their way to a provider: the registry upper-cases
  every `type`, the OpenAI-style providers lower-case them again.
*/
module ToolSchema {
  import opened Json

  /** Rewrites every visited `type` string: of the schema itself, of its properties, of its items. */
  function Convert(f: string -> string, schema: Json): Json
    decreases schema, 0
  {
    if schema.Obj? then Obj(map k | k in schema.fields :: ConvertField(f, k, schema.fields[k])) else schema
  }

  function ConvertField(f: string -> string, key: string, value: Json): Json
    decreases value, 1
  {
    if key == "type" && value.Str? then Str(f(value.text))
    else if key == "properties" && value.Obj? then Obj(map p | p in value.fields :: Convert(f, value.fields[p]))
    else if key == "items" && value.Obj? then Convert(f, value)
    else value
  }

  function Sanitize(schema: Json): Json {
    Convert(Upper, schema)
  }

  function LowercaseTypes(schema: Json): Json {
    Convert(Lower, schema)
  }

  /** Every visited `type` string satisfies p. */
  ghost predicate TypesAll(p: string -> bool, schema: Json)
    decreases schema, 0
  {
    schema.Obj? ==> forall k :: k in schema.fields ==> FieldTypesAll(p, k, schema.fields[k])
  }

  ghost predicate FieldTypesAll(p: string -> bool, key: string, value: Json)
    decreases value, 1
  {
    && (key == "type" && value.Str? ==> p(value.text))
    && (key == "properties" && value.Obj? ==> forall k :: k in value.fields ==> TypesAll(p, value.fields[k]))
    && (key == "items" && value.Obj? ==> TypesAll(p, value))
  }

  /** Two conversions in a row are one, if they are on every string. */
  lemma {:induction false} Fuse(f: string -> string, g: string -> string, h: string -> string, schema: Json)
    requires forall t :: g(f(t)) == h(t)
    ensures Convert(g, Convert(f, schema)) == Convert(h, schema)
    decreases schema, 0
  {
    if schema.Obj? {
      var m := schema.fields;
      forall k | k in m ensures ConvertField(g, k, ConvertField(f, k, m[k])) == ConvertField(h, k, m[k]) {
        FuseField(f, g, h, k, m[k]);
      }
    }
  }

  lemma {:induction false} FuseField(f: string -> string, g: string -> string, h: string -> string, key: string,
          value: Json)
    requires forall t :: g(f(t)) == h(t)
    ensures ConvertField(g, key, ConvertField(f, key, value)) == ConvertField(h, key, value)
    decreases value, 1
  {
    if value.Obj? {
      Fuse(f, g, h, value);
      forall p | p in value.fields
        ensures Convert(g, Convert(f, value.fields[p])) == Convert(h, value.fields[p])
      {
        Fuse(f, g, h, value.fields[p]);
      }
    }
  }

  /** A conversion leaves a schema as it is exactly when it fixes every visited type. */
  lemma {:induction false} FixedIff(f: string -> string, p: string -> bool, schema: Json)
    requires forall t :: p(t) <==> f(t) == t
    ensures Convert(f, schema) == schema <==> TypesAll(p, schema)
    decreases schema, 0
  {
    if schema.Obj? {
      var m := schema.fields;
      forall k | k in m ensures ConvertField(f, k, m[k]) == m[k] <==> FieldTypesAll(p, k, m[k]) {
        FieldFixedIff(f, p, k, m[k]);
      }
      SameMap(m, Convert(f, schema).fields);
    }
  }

  lemma {:induction false} FieldFixedIff(f: string -> string, p: string -> bool, key: string, value: Json)
    requires forall t :: p(t) <==> f(t) == t
    ensures ConvertField(f, key, value) == value <==> FieldTypesAll(p, key, value)
    decreases value, 1
  {
    if value.Obj? {
      FixedIff(f, p, value);
      var ps := value.fields;
      forall k | k in ps ensures Convert(f, ps[k]) == ps[k] <==> TypesAll(p, ps[k]) {
        FixedIff(f, p, ps[k]);
      }
      SameMap(ps, map k | k in ps :: Convert(f, ps[k]));
    }
  }

  lemma SameMap(m: map<string, Json>, n: map<string, Json>)
    requires n.Keys == m.Keys
    ensures n == m <==> forall k :: k in m ==> n[k] == m[k]
  {
  }

  predicate NoUpper(t: string) {
    forall i :: 0 <= i < |t| ==> !IsUpper(t[i])
  }

  /** A provider gets back the schema as registered exactly when no visited type has an upper-case letter. */
  lemma RoundTripIff(schema: Json)
    ensures LowercaseTypes(Sanitize(schema)) == schema <==> TypesAll(NoUpper, schema)
  {
    ConversionsAbsorb(schema);
    forall t: string ensures NoUpper(t) <==> Lower(t) == t {
      LowerFixes(t);
    }
    FixedIff(Lower, NoUpper, schema);
  }

  /** Either conversion a second time changes nothing, and the last one decides. */
  lemma ConversionsAbsorb(schema: Json)
    ensures Sanitize(Sanitize(schema)) == Sanitize(schema)
    ensures LowercaseTypes(LowercaseTypes(schema)) == LowercaseTypes(schema)
    ensures Sanitize(LowercaseTypes(schema)) == Sanitize(schema)
    ensures LowercaseTypes(Sanitize(schema)) == LowercaseTypes(schema)
  {
    forall t: string
      ensures Upper(Upper(t)) == Upper(t) && Lower(Lower(t)) == Lower(t)
      ensures Lower(Upper(t)) == Lower(t) && Upper(Lower(t)) == Upper(t)
    {
      CaseLaws(t);
    }
    Fuse(Upper, Upper, Upper, schema);
    Fuse(Lower, Lower, Lower, schema);
    Fuse(Lower, Upper, Upper, schema);
    Fuse(Upper, Lower, Lower, schema);
  }

  predicate NoLower(t: string) {
    forall i :: 0 <= i < |t| ==> !IsLower(t[i])
  }

  /** The registry leaves no visited type with a lower-case letter, a provider none with an upper-case one. */
  lemma TypesTakeTheCase(schema: Json)
    ensures TypesAll(NoLower, Sanitize(schema))
    ensures TypesAll(NoUpper, LowercaseTypes(schema))
  {
    ConversionsAbsorb(schema);
    forall t: string
      ensures NoLower(t) <==> Upper(t) == t
      ensures NoUpper(t) <==> Lower(t) == t
    {
      UpperFixes(t);
      LowerFixes(t);
    }
    FixedIff(Upper, NoLower, Sanitize(schema));
    FixedIff(Lower, NoUpper, LowercaseTypes(schema));
  }

  /** A schema with its visited types blanked: its shape and all its other content. */
  function Blank(schema: Json): Json {
    Convert(t => "", schema)
  }

  /** Neither conversion touches anything but the visited types, at any depth. */
  lemma OnlyTypesChange(schema: Json)
    ensures Blank(Sanitize(schema)) == Blank(schema)
    ensures Blank(LowercaseTypes(schema)) == Blank(schema)
  {
    Fuse(Upper, t => "", t => "", schema);
    Fuse(Lower, t => "", t => "", schema);
  }
}
