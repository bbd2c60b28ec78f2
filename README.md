# ClanLib style values, style cascade and signal slot lists in Dafny

This project models two parts of the ClanLib SDK.

The first is the styling core of the UI library (`Sources/API/UI/Style/style.h`):
- the tagged style value, in its read form `StyleGetValue` and its owning form `StyleSetValue`;
- gradient stops, gradients and images built from those values;
- the property set `Style`, which maps property names to declared values;
- the resolver `StyleCascade`. It finds the cascaded value (the first declaration in priority order), then the specified value (inheritance from the parent cascade or the initial value), then the computed value (units normalised to px, radians, seconds, Hz and dots per px).

The second is slot list maintenance in the five-parameter signal (`Sources/API/Core/Signals/signal_v5.h`):
- connecting a callback;
- purging invalidated slots in place;
- invoking the valid and enabled slots in order;
- sharing one implementation object between copies of a signal.

Modules, one per component:
- `StyleValues` (style_values.dfy): the value kinds, the units, `Colorf`, and both value classes with their accessors, `is_*` predicates and `from_*` factories. `StyleGetValue` is a closed sum type with one constructor per kind. The original is a tag plus a C++ union, and its accessors never read a union member that the tag does not select. `StyleSetValue` is a record with the five public fields of the original struct. Its factories set the tag and payload and leave every other field at its initialiser.
- `StyleImages` (style_images.dfy): `StyleGradientStop`, `StyleGradient`, `StyleImage`. The image keeps both of its fields, as the original does.
- `StyleUnits` (style_units.dfy): the `compute_*` conversions as pure functions, with the ratios from the unit comments. Numbers are `real`. π is the constant `PI`.
- `StyleSets` (style_sets.dfy): the class `Style` with `Set` and `DeclaredValue`, and the channel arithmetic of `to_rgba`.
- `StyleCascades` (style_cascade.dfy): the class `StyleCascade`. Its parent chain carries a depth that strictly decreases towards the root, so resolution always terminates. The cascaded value is given by the function `FirstDeclared` and the specified value by the function `Specified`. The method `CascadeValue` is proved against `FirstDeclared`, and `SpecifiedValue` and `ComputedValue` are proved against `Specified`.
- `Signals` (signals.dfy): the slot records, the shared implementation object and the class `Signal`. Its methods `Connect`, `CleanUp` and `Invoke` are proved against the functions `ValidSlots` and `Fired`.

Parameters stand in for the tables and context that the header leaves outside the cascade:
- which properties are inherited, and each property's initial value (`PropertyTable`);
- the font sizes, the advance of the "0" glyph and the viewport size needed for em, ex, rem, ch and viewport units (`LengthContext`).

style.h declares `cascade_value`, `specified_value`, `computed_value`, the `compute_*` functions, `Style::set` and `declared_value` without bodies. The model follows their doc comments (style.h:385-397, 436-453):
- the cascaded value is the first non-undefined declared value;
- an undefined cascaded value of an inherited property falls back to the parent's specified value when there is a parent;
- otherwise the initial value is used, which is undefined for an unknown name.

## Model

| member | source | states |
|---|---|---|
| StyleValues.StyleGetValue.Text | Sources/API/UI/Style/style.h:105-116 | the stored text for keyword, url and string values; "" for every other kind |
| StyleValues.StyleGetValue.Number | Sources/API/UI/Style/style.h:119-134 | the stored number for length, percentage, number, angle, time, frequency and resolution; 0 for every other kind |
| StyleValues.StyleGetValue.Dimension | Sources/API/UI/Style/style.h:137-150 | the stored unit for length, angle, time, frequency and resolution; px otherwise, percentage and number included |
| StyleValues.StyleGetValue.Color | Sources/API/UI/Style/style.h:153-159 | the stored colour only for colour values; the default colour otherwise |
| StyleValues.StyleGetValue.Default | Sources/API/UI/Style/style.h:233 | a default-constructed value is undefined, and every accessor gives its default |
| StyleValues.StyleGetValue.FromKeyword | Sources/API/UI/Style/style.h:200 | yields a keyword whose text is the argument and which is_keyword(argument) accepts |
| StyleValues.StyleGetValue.FromString | Sources/API/UI/Style/style.h:203 | yields a string value holding the text, which is not a keyword |
| StyleValues.StyleGetValue.FromLength | Sources/API/UI/Style/style.h:206 | round trip: is_length, number() is the length, dimension() is the unit (px by default) |
| StyleValues.StyleGetValue.FromAngle | Sources/API/UI/Style/style.h:209 | round trip for angles, rad by default |
| StyleValues.StyleGetValue.FromTime | Sources/API/UI/Style/style.h:212 | round trip for times, s by default |
| StyleValues.StyleGetValue.FromFrequency | Sources/API/UI/Style/style.h:215 | round trip for frequencies, hz by default |
| StyleValues.StyleGetValue.FromResolution | Sources/API/UI/Style/style.h:218 | round trip for resolutions, dppx by default |
| StyleValues.StyleGetValue.FromPercentage | Sources/API/UI/Style/style.h:221 | a percentage keeps its number, and its dimension reads as px |
| StyleValues.StyleGetValue.FromNumber | Sources/API/UI/Style/style.h:224 | a number keeps its number, and its dimension reads as px |
| StyleValues.StyleGetValue.FromUrl | Sources/API/UI/Style/style.h:227 | yields a url value holding the text |
| StyleValues.StyleGetValue.FromColor | Sources/API/UI/Style/style.h:230 | yields a colour value whose color() is the argument, with every other accessor at its default |
| StyleValues.TypeSelectsPayload | Sources/API/UI/Style/style.h:101-159 | type() is undefined, a text kind, a number kind, a unit kind or colour exactly when the value holds no payload, a text, a number, a number with a unit or a colour |
| StyleValues.KindPredicatesMatchVariant | Sources/API/UI/Style/style.h:162-197 | each of is_undefined, is_keyword, is_length, …, is_color recognises exactly one kind of value, and exactly one of them holds for every value |
| StyleValues.KeywordNamedIffFromKeyword | Sources/API/UI/Style/style.h:166-167 | is_keyword(k) holds exactly for the value from_keyword(k) builds, so it is false for every other kind |
| StyleValues.UndefinedIffDefault | Sources/API/UI/Style/style.h:162 | is_undefined holds exactly for the default-constructed value |
| StyleValues.AccessorsDetermineValue | Sources/API/UI/Style/style.h:102-159 | two values that agree on the tag and on all four accessors are equal: no payload is hidden from the accessors |
| StyleValues.StyleSetValue.Default | Sources/API/UI/Style/style.h:252-264 | the initialisers: undefined, empty text, number 0, px, default colour |
| StyleValues.StyleSetValue.FromKeyword | Sources/API/UI/Style/style.h:305 | sets only the tag and the text, and widens to from_keyword of the read form |
| StyleValues.StyleSetValue.FromString | Sources/API/UI/Style/style.h:308 | sets only the tag and the text, and widens to from_string of the read form |
| StyleValues.StyleSetValue.FromLength | Sources/API/UI/Style/style.h:311 | sets only the tag, number and unit, and widens to from_length of the read form |
| StyleValues.StyleSetValue.FromAngle | Sources/API/UI/Style/style.h:314 | sets only the tag, number and unit (rad by default), and widens to from_angle |
| StyleValues.StyleSetValue.FromTime | Sources/API/UI/Style/style.h:317 | sets only the tag, number and unit (s by default), and widens to from_time |
| StyleValues.StyleSetValue.FromFrequency | Sources/API/UI/Style/style.h:320 | sets only the tag, number and unit (hz by default), and widens to from_frequency |
| StyleValues.StyleSetValue.FromResolution | Sources/API/UI/Style/style.h:323 | sets only the tag, number and unit (dppx by default), and widens to from_resolution |
| StyleValues.StyleSetValue.FromPercentage | Sources/API/UI/Style/style.h:326 | sets only the tag and number, so the unit stays px, and widens to from_percentage |
| StyleValues.StyleSetValue.FromNumber | Sources/API/UI/Style/style.h:329 | sets only the tag and number, and widens to from_number |
| StyleValues.StyleSetValue.FromUrl | Sources/API/UI/Style/style.h:332 | sets only the tag and the text, and widens to from_url |
| StyleValues.StyleSetValue.FromColor | Sources/API/UI/Style/style.h:335 | sets only the tag and the colour, and widens to from_color |
| StyleValues.StyleSetValue.ToGetValue | Sources/API/UI/Style/style.h:453 | widening a stored value keeps its tag, and every accessor returns the stored field that the tag selects |
| StyleValues.SetKindPredicatesExclusive | Sources/API/UI/Style/style.h:266-302 | exactly one is_* predicate holds for a stored value, and is_keyword(k) on a value whose other fields are at their initialisers holds exactly for from_keyword(k) |
| StyleValues.KeywordNamedAgrees | Sources/API/UI/Style/style.h:271-272 | is_keyword(k) gives the same answer on a stored value and on its read view |
| StyleValues.KindPredicatesAgree | Sources/API/UI/Style/style.h:267-302 | each is_* predicate gives the same answer on a stored value and on its read view |
| StyleImages.StyleGradientStop.Default | Sources/API/UI/Style/style.h:342 | a default stop has a colour and a position that are both default-initialised, and so undefined |
| StyleImages.StyleGradient.Default | Sources/API/UI/Style/style.h:350-361 | a default gradient has all seven values default-initialised, and so undefined, and no stops |
| StyleImages.StyleImage.Default | Sources/API/UI/Style/style.h:367 | a default image has a default-initialised, undefined image and a default gradient |
| StyleImages.StyleImage.FromImage | Sources/API/UI/Style/style.h:368 | sets the image and leaves the gradient at its default |
| StyleImages.StyleImage.FromGradient | Sources/API/UI/Style/style.h:369 | sets the gradient and leaves the image default-initialised, and so undefined |
| StyleImages.ImageConstructorsDistinct | Sources/API/UI/Style/style.h:367-372 | a url image and a gradient image never coincide, and only the first reports a url |
| StyleUnits.PxPerUnit | Sources/API/UI/Style/style.h:70-83 | px is 1 and in is 96; the other ratios are pt = 1/72 in, 1in = 2.54cm, 1pc = 12pt, ex = 0.5em, and context-relative units |
| StyleUnits.ComputeLength | Sources/API/UI/Style/style.h:399-400 | a length in a length unit becomes px at the unit's ratio; px values and every other input are unchanged; the kind is kept |
| StyleUnits.RadiansPerUnit | Sources/API/UI/Style/style.h:84-87 | rad is 1; deg, grad and turn are PI/180, PI/200 and 2 PI |
| StyleUnits.ComputeAngle | Sources/API/UI/Style/style.h:402-403 | an angle becomes radians; rad values and other inputs are unchanged |
| StyleUnits.ComputeTime | Sources/API/UI/Style/style.h:405-406 | a time becomes seconds, ms divided by 1000; s values and other inputs are unchanged |
| StyleUnits.ComputeFrequency | Sources/API/UI/Style/style.h:408-409 | a frequency becomes Hz, khz times 1000; hz values and other inputs are unchanged |
| StyleUnits.DppxPerUnit | Sources/API/UI/Style/style.h:92-94 | dppx is 1; dpi and dpcm convert by 96 px per inch and 2.54 cm per inch |
| StyleUnits.ComputeResolution | Sources/API/UI/Style/style.h:411-412 | a resolution becomes dots per px; dppx values and other inputs are unchanged |
| StyleUnits.ComputeValue | Sources/API/UI/Style/style.h:394-397 | the kind is kept, and kinds without a unit pass through unchanged |
| StyleUnits.ComputeValueCanonical | Sources/API/UI/Style/style.h:396 | a value whose unit fits its kind is converted into the canonical unit of that kind |
| StyleUnits.CanonicalIsFixedPoint | Sources/API/UI/Style/style.h:396 | a value already in its canonical unit is left unchanged |
| StyleUnits.ComputeValueIdempotent | Sources/API/UI/Style/style.h:394-412 | converting twice equals converting once |
| StyleUnits.ComputeLengthIdempotent | Sources/API/UI/Style/style.h:399-400 | compute_length applied twice equals applied once |
| StyleUnits.LengthRatios | Sources/API/UI/Style/style.h:70-77 | 1in, 72pt, 2.54cm and 25.4mm all become 96px; 1pc equals 12pt; 2ex equal 1em |
| StyleUnits.EmExample | Sources/API/UI/Style/style.h:71 | 2em at a 20px font size become 40px |
| StyleUnits.AngleRatios | Sources/API/UI/Style/style.h:84-87 | 180deg, 200grad and 0.5turn all become PI rad |
| StyleUnits.TimeFrequencyResolutionRatios | Sources/API/UI/Style/style.h:88-94 | 1000ms is 1s, 1khz is 1000hz, 96dpi and 96/2.54 dpcm are 1dppx |
| StyleSets.ApplyDeclarations | Sources/API/UI/Style/style.h:436-444 | applying declarations never removes a property |
| StyleSets.ApplyDeclarationsKeys | Sources/API/UI/Style/style.h:439-440 | afterwards exactly the old names and the newly declared names are present |
| StyleSets.ApplyDeclarationsUntouched | Sources/API/UI/Style/style.h:439-440 | a property that no declaration names keeps its previous value, or stays absent |
| StyleSets.ApplyDeclarationsLastWins | Sources/API/UI/Style/style.h:436-444 | the last declaration of a property decides its stored value |
| StyleSets.Style.constructor | Sources/API/UI/Style/style.h:431 | a new property set is empty |
| StyleSets.Style.Set | Sources/API/UI/Style/style.h:444 | the properties become the old properties with the parsed declarations upserted in order |
| StyleSets.Style.DeclaredValue | Sources/API/UI/Style/style.h:452-453 | undefined for a property never declared; otherwise the stored value widened to a read view |
| StyleSets.Round | Sources/API/UI/Style/style.h:460-462 | std::round: the result is within 1/2 of the argument, and halves go away from zero |
| StyleSets.Clamp | Sources/API/UI/Style/style.h:460-462 | the result lies within the bounds; a value inside them is kept, one below saturates to the lower bound and one above to the upper bound |
| StyleSets.ChannelByte | Sources/API/UI/Style/style.h:460 | a channel becomes an integer in 0..255: the rounded product with 255 when that is in range, 0 when it is below, 255 when it is above; so channels at or below 0 give 0 and at or above 1 give 255 |
| StyleSets.ToRgba | Sources/API/UI/Style/style.h:455-464 | for each of red, green and blue: the argument lies in 0..255, is the rounded product with 255 when that is in range, is 0 for a channel at or below 0 and 255 for one at or above 1; alpha is passed through unchanged |
| StyleSets.ChannelByteRoundTrip | Sources/API/UI/Style/style.h:460-462 | the channel k/255 is written back as k for every byte k |
| StyleSets.OpaqueRedRgba | Sources/API/UI/Style/style.h:455-464 | opaque red gives the arguments 255, 0, 0, 1 |
| StyleCascades.PropertyTable.InitialValue | Sources/API/UI/Style/style.h:391 | undefined for an unknown property, and defined for every property a well-formed table knows |
| StyleCascades.FirstDeclared | Sources/API/UI/Style/style.h:388-389 | the cascaded value: undefined for an empty cascade, and a defined result is the declared value of one of the property sets |
| StyleCascades.FirstDeclaredIsFirst | Sources/API/UI/Style/style.h:388-389 | the cascaded value is the declaration of the first property set that declares the property |
| StyleCascades.FirstDeclaredUndefinedIff | Sources/API/UI/Style/style.h:388-389 | the cascaded value is undefined exactly when no property set declares the property |
| StyleCascades.FirstDeclaredSource | Sources/API/UI/Style/style.h:388-389 | a defined cascaded value comes from some property set, and every earlier set leaves the property undeclared |
| StyleCascades.StyleCascade.constructor | Sources/API/UI/Style/style.h:380 | stores the property sets and the parent, and sets up an acyclic, finite parent chain |
| StyleCascades.StyleCascade.Specified | Sources/API/UI/Style/style.h:391 | the specified value is undefined only when the element's own sets declare nothing for the property |
| StyleCascades.SpecifiedSource | Sources/API/UI/Style/style.h:391-392 | the specified value is the initial value, or a defined value declared by a property set of the element or one of its ancestors |
| StyleCascades.StyleCascade.CascadeValue | Sources/API/UI/Style/style.h:388-389 | the scan returns the first declared value in cascade order, or undefined |
| StyleCascades.StyleCascade.SpecifiedValue | Sources/API/UI/Style/style.h:391-392 | walking up the parent chain gives the specified value: cascaded, else inherited from the parent, else initial |
| StyleCascades.StyleCascade.ComputedValue | Sources/API/UI/Style/style.h:394-397 | the computed value is the specified value converted to canonical units |
| StyleCascades.SpecifiedDefinedForKnown | Sources/API/UI/Style/style.h:391 | a recognised property never resolves to undefined, at any depth of the parent chain |
| StyleCascades.SpecifiedUnknownIsCascaded | Sources/API/UI/Style/style.h:391 | an unknown property resolves to its cascaded value unchanged |
| StyleCascades.NonInheritedIgnoresParent | Sources/API/UI/Style/style.h:385-391 | a non-inherited property resolves the same whatever the parent, and falls back to its initial value |
| StyleCascades.InheritedFromParent | Sources/API/UI/Style/style.h:385-391 | an inherited property that no own set declares takes the parent's specified value |
| StyleCascades.DeclaredWins | Sources/API/UI/Style/style.h:388-392 | a declaration in the element's own sets beats both inheritance and the initial value |
| StyleCascades.FallbackWithinStack | Sources/API/UI/Style/style.h:383-389 | with sets [override, base] where only base declares margin: 4px, the cascaded margin is 4px |
| StyleCascades.DeclaredColor | Sources/API/UI/Style/style.h:453 | a declared colour is read back as a colour value holding opaque red |
| StyleCascades.InheritFromParent | Sources/API/UI/Style/style.h:385-392 | a child with no declaration of an inherited property gets the parent's declared value |
| Signals.SlotCallback.constructor | Sources/API/Core/Signals/signal_v5.h:131-132 | a new slot record holds its callback and is valid and enabled |
| Signals.SignalImpl.constructor | Sources/API/Core/Signals/signal_v5.h:117 | a new implementation has no connected slots |
| Signals.SizeDecrement | Sources/API/Core/Signals/signal_v5.h:202 | `i--` on the unsigned index: wraps from 0 to the largest value, otherwise subtracts one |
| Signals.SizeIncrement | Sources/API/Core/Signals/signal_v5.h:197 | `i++` on the unsigned index: wraps from the largest value to 0, otherwise adds one |
| Signals.ValidSlots | Sources/API/Core/Signals/signal_v5.h:193-206 | the purge never lengthens the list |
| Signals.Fired | Sources/API/Core/Signals/signal_v5.h:177-185 | an invocation fires at most one callback per slot |
| Signals.ValidSlotsMembers | Sources/API/Core/Signals/signal_v5.h:199-201 | after the purge every slot is valid, and exactly the valid slots remain |
| Signals.ValidSlotsLength | Sources/API/Core/Signals/signal_v5.h:195-204 | the purged length is the number of valid slots, and nothing is removed exactly when all are valid |
| Signals.ValidSlotsAppend | Sources/API/Core/Signals/signal_v5.h:197-205 | the purge distributes over concatenation, so kept slots keep their relative order |
| Signals.ValidSlotsIdempotent | Sources/API/Core/Signals/signal_v5.h:193-206 | purging twice equals purging once |
| Signals.FiredAppend | Sources/API/Core/Signals/signal_v5.h:182-184 | invocation distributes over concatenation, so callbacks fire in list order |
| Signals.FiredMembers | Sources/API/Core/Signals/signal_v5.h:183 | a callback fires exactly when a slot carrying it is both valid and enabled |
| Signals.FiredIgnoresPurge | Sources/API/Core/Signals/signal_v5.h:183-199 | purging invalid slots never changes what an invocation fires |
| Signals.Signal.constructor | Sources/API/Core/Signals/signal_v5.h:116-117 | a new signal has a fresh, empty implementation |
| Signals.Signal.Copy | Sources/API/Core/Signals/signal_v5.h:119-120 | a copy shares the implementation of the signal it copies |
| Signals.Signal.CleanUp | Sources/API/Core/Signals/signal_v5.h:193-206 | the in-place erase loop, with the unsigned index wrap, leaves exactly the valid slots of the old list, in order |
| Signals.Signal.Connect | Sources/API/Core/Signals/signal_v5.h:128-175 | purges, then appends exactly one fresh valid and enabled slot with the callback; earlier entries keep their order |
| Signals.Signal.Invoke | Sources/API/Core/Signals/signal_v5.h:177-185 | fires the valid and enabled slots of a copy of the list, in order, and changes nothing |
| Signals.ConnectThroughCopy | Sources/API/Core/Signals/signal_v5.h:119-135 | a callback connected through a copy is fired by the original's next invocation, after what it fired before |

## Left out

- The file dialog wrapper, the vector font provider and the checkbox view are outside this model: they are UI and platform plumbing with no logic in their headers.
- `render_background`, `render_border` and `get_font` draw on a canvas or build a font through the external font subsystem.
- `array_size` is not modelled. The header exposes no list form of a value and no indexed getter to count against.
- The declaration parser and the `%1` argument substitution behind `Style::set` are not modelled. `Set` takes already-parsed (name, value) pairs, so a malformed declaration never reaches it.
- The insertion order of a property set is not modelled. Properties are a map, because lookup only depends on the name.
- Gradient stop auto-distribution is not modelled. It belongs to the renderer and is not in the header.
- The em font size, the root font size, the "0" glyph advance and the viewport size are `LengthContext` parameters. The recursive computation of an element's own font-size is not modelled.
- StyleUnits.ComputeLength: the header does not say what a compute_* function does with a value of another kind, or with a unit of another family. The model passes such values through unchanged.
- StyleCascades.StyleCascade.SpecifiedValue: style.h declares it without a body. The model follows the resolution named by the doc comment at style.h:391: an undefined cascaded value of an inherited property takes the parent's specified value. The CSS keywords `inherit` and `initial` get no special treatment.
- Which properties are inherited, and their initial values, come from a property table the header does not show. They are a `PropertyTable` parameter.
- Floating point is modelled as exact `real` arithmetic. The float rounding errors of the conversions and of `to_rgba`'s channel product are not modelled, and neither are out-of-range float-to-int casts.
- StyleSets.ToRgba: returns the four arguments that are substituted into "rgba(%1,%2,%3,%4)", not the formatted text, because the number formatting of `string_format` is not part of this model.
- The default `Colorf` is taken to be all zeros. color.h is not part of this model.
- A new slot record is taken to be valid and enabled. slot.h is not part of this model, and neither is the `Slot` handle's way of disabling or invalidating a slot. Clients may set those two flags directly.
- What callbacks do when they run is not modelled, and neither are their parameters. The five callback classes of the five `connect` overloads are the five constructors of `Callback`. Invoking returns the callbacks fired, in order.
- Signals.Signal.Invoke: a callback that changes slot flags, disconnects or connects slots while the signal runs is not modelled. The copy taken before dispatch (signal_v5.h:179) fixes only which slot records are visited and in what order; their `valid` and `enabled` flags are read through the shared records as each one is reached (signal_v5.h:183), so a callback that disables or invalidates a later slot would stop it firing. The model reads all flags as they stand when the invocation starts.
- Signals.Signal.CleanUp and Signals.Signal.Connect require fewer than 2^64 connected slots. That is the range of the unsigned size type.
