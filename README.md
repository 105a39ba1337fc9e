# Australia Post shipping for Drupal Commerce, modelled in Dafny

This project models the deterministic core of the Drupal Commerce shipping
method that quotes Australia Post (AusPost) postage through the Postage
Assessment Calculator (PAC) API:

- the service catalogues: the 48 default services the service-definition
  plugins are derived from, the 13-entry legacy catalogue and its copy in
  `SupportedServices`, and the parcel size and weight limits;
- the deriver that turns the default catalogue into plugin definitions, and
  the service-definition object with its validating setters;
- the lookup and filter helpers of `ServiceSupport` and `SupportedServices`;
- the packing adapters that present order items and Commerce package types
  to the box packer in whole millimetres and grams, the shipment packer that
  feeds the box packer, and the Commerce packer that proposes the shipment;
- the PAC request builder (guarded getters, dimensions in centimetres,
  insurance amount), the client that assembles the option array and picks
  the SDK method, and the response that reads the total cost;
- `AusPost::calculateRates`, which prices every enabled service box by box
  and applies the rate multiplier and the rounder.

PHP arrays are ordered maps (`OrderedMaps.OMap`, a sequence of key/value
pairs with PHP's assignment, `+`, `array_filter` and `array_intersect_key`);
mixed PHP values are `PhpValues.Value`; each exception class is a
constructor of `Wrappers.Failure`, returned through `Result`. Lengths and
weights carry their unit and are compared in millimetres and grams; money,
lengths and weights are exact reals. Objects whose fields the source
updates (the deriver, the service definition, the request, the response,
the client, the shipment packer, the box packer, the shipping method) are
classes whose methods are proved equal to specification functions; the
properties are proved about those functions.

The deriver is modelled as written: it reads `sub_option_code` where the
catalogue writes `sub_opt_code`, and it asks letter limits for `height`
where the catalogue writes `thickness`, so every derivative has a NULL
sub-option and no derivative gets size limits (`Deriver.EntryKeysMismatch`,
`Deriver.DerivedFromDefaults`). The reading the catalogue evidently calls
for is modelled beside it (`Deriver.CorrectedDefinition`); see Findings.

## Model

| member | source | states |
|---|---|---|
| ServiceEnums.FindByName | src/PostageServices/ServiceDefinitions/ServiceCodes.php:12-102 | the lookup of an enumeration's constant by value finds the one constant with that value, and nothing when none has it |
| ServiceEnums.ParseDestination | src/PostageServices/ServiceDefinitions/ServiceDestinations.php:12-20 | a string parses to a destination exactly when it is that destination's value |
| ServiceEnums.ParseServiceType | src/PostageServices/ServiceDefinitions/ServiceTypes.php:12-20 | a string parses to a service type exactly when it is that type's value |
| ServiceEnums.ServiceCodeNamesDistinct | src/PostageServices/ServiceDefinitions/ServiceCodes.php:12-102 | the 29 service-code constants have distinct values |
| ServiceEnums.CodePrefix | src/PostageServices/ServiceDefinitions/ServiceCodes.php:12-102 | the first 17 codes are the domestic AUS_ ones and the remaining 12 the INT_ ones |
| ServiceEnums.ParseServiceCode | src/PostageServices/ServiceDefinitions/ServiceCodes.php:12-102 | a string that parses is the value of the code it parses to |
| ServiceEnums.ServiceOptionNamesDistinct | src/PostageServices/ServiceDefinitions/ServiceOptions.php:12-53 | the 12 service-option constants have distinct values |
| ServiceEnums.ParseServiceOption | src/PostageServices/ServiceDefinitions/ServiceOptions.php:12-53 | a string that parses is the value of the option it parses to |
| ServiceEnums.NamesParse | src/PostageServices/ServiceDefinitions/ServiceTypes.php:15-18 | every destination and service type value parses back to itself |
| ServiceEnums.ServiceCodeNameParses | src/PostageServices/ServiceDefinitions/ServiceCodes.php:12-102 | every service code's value parses back to that code |
| ServiceEnums.ServiceOptionNameParses | src/PostageServices/ServiceDefinitions/ServiceOptions.php:12-53 | every service option's value parses back to that option |
| ServiceEnums.AssertDestination | src/PostageServices/ServiceDefinitions/AbstractServiceDefinition.php:178 | assertExists accepts exactly the destination strings and otherwise throws InvalidArgumentException |
| ServiceEnums.AssertServiceType | src/PostageServices/ServiceDefinitions/AbstractServiceDefinition.php:194 | assertExists accepts exactly the service-type strings and otherwise throws InvalidArgumentException |
| ServiceEnums.AssertServiceCode | src/PostageServices/ServiceDefinitions/AbstractServiceDefinition.php:210 | assertExists accepts exactly the service-code strings and otherwise throws InvalidArgumentException |
| ServiceEnums.AssertServiceOption | src/PostageServices/ServiceDefinitions/AbstractServiceDefinition.php:226 | assertExists accepts exactly the service-option strings and otherwise throws InvalidArgumentException |
| ServiceDefinitions.MaxParcelDimensions | src/PostageServices/ServiceDefinitions.php:50-63 | both destinations allow 105 cm length; domestic parcels 22 kg and 0.25 m³, international ones 20 kg and 140 cm girth |
| ServiceDefinitions.Services | src/PostageServices/ServiceDefinitions.php:73-851 | the catalogue has 13 entries, in source order |
| ServiceDefinitions.ServiceKeysDistinct | src/PostageServices/ServiceDefinitions.php:73-851 | no two entries share a key |
| ServiceDefinitions.EntryKind | src/PostageServices/ServiceDefinitions.php:73-851 | every entry is a parcel service, and the first ten are the domestic ones |
| ServiceDefinitions.CatalogueShape | src/PostageServices/ServiceDefinitions.php:73-851 | domestic entries use the regular, express or courier parcel codes, international ones air own packaging; extra cover is 0, 300 or 5000, and positive exactly when the entry asks for an extra-cover option |
| ServiceDefinitionDefaults.ServiceAt | src/PostageServices/ServiceDefinitions/ServiceDefinitionDefaults.php:64-735 | each entry carries the key, description, type, destination, codes, extra cover and letter limits written for it |
| ServiceDefinitionDefaults.Services | src/PostageServices/ServiceDefinitions/ServiceDefinitionDefaults.php:61-736 | the defaults hold 48 entries, in source order |
| ServiceDefinitionDefaults.ServicesArray | src/PostageServices/ServiceDefinitions/ServiceDefinitionDefaults.php:61-736 | the array the deriver reads: the 48 entries under their keys, in order |
| ServiceDefinitionDefaults.ServiceKeysDistinct | src/PostageServices/ServiceDefinitions/ServiceDefinitionDefaults.php:64-735 | the 48 keys are distinct, so the array keeps every entry |
| ServiceDefinitionDefaults.Groups | src/PostageServices/ServiceDefinitions/ServiceDefinitionDefaults.php:63-735 | entries 0-9 are domestic parcels, 10-22 international parcels, 23-38 domestic letters and 39-47 international letters |
| ServiceDefinitionDefaults.GroupSizes | src/PostageServices/ServiceDefinitions/ServiceDefinitionDefaults.php:63-735 | filtering by type and destination yields exactly those four slices, 10, 13, 16 and 9 entries |
| ServiceDefinitionDefaults.LetterLimitsShape | src/PostageServices/ServiceDefinitions/ServiceDefinitionDefaults.php:318-735 | exactly the letters carry size limits, with width ≤ length ≤ 360 mm, thickness 5 or 20 mm and 50-500 g |
| ServiceDefinitionDefaults.ExtraCoverShape | src/PostageServices/ServiceDefinitions/ServiceDefinitionDefaults.php:64-735 | extra cover is 0, 300 or 5000, and positive exactly when the entry asks for an extra-cover option |
| ServiceDefinitionDefaults.OptionsMatchDestination | src/PostageServices/ServiceDefinitions/ServiceDefinitionDefaults.php:64-735 | international entries use no sub-option and only international options; every domestic entry has a domestic option |
| ServiceDefinitionDefaults.CodesMatchDestination | src/PostageServices/ServiceDefinitions/ServiceDefinitionDefaults.php:64-735 | an entry's service code starts with AUS_ exactly when it is domestic and with INT_ exactly when it is international |
| ServiceDefinitionDefaults.LegacyCatalogueIsContained | src/PostageServices/ServiceDefinitions.php:73-851 | the 13 entries of the older catalogue reappear among the defaults with the same key, type, destination, codes and extra cover |
| ServiceDefinitionDefaults.MaxParcelDimensions | src/PostageServices/ServiceDefinitions/ServiceDefinitionDefaults.php:40-53 | 105 cm for both destinations; 22 kg and 0.25 m³ domestic, 20 kg and 140 cm girth international, with no girth at home and no volume abroad |
| OrderedMaps.Put | src/Plugin/Deriver/ServiceDefinitionDeriver.php:25 | PHP assignment `$a[$k] = $v`: the key now holds v, every other key is unchanged, an existing key keeps its place and a new key goes last |
| OrderedMaps.Union | src/Plugin/Deriver/ServiceDefinitionDeriver.php:53 | PHP `+=`: the left array is kept as a prefix, keys of both are present, and the left side wins on shared keys |
| OrderedMaps.FilterMembers | src/Plugin/Commerce/ShippingMethod/AusPost.php:512-525 | array_filter keeps exactly the entries the callback accepts |
| OrderedMaps.FilterAppend | src/PostageServices/ServiceSupport.php:79-82 | array_filter distributes over concatenation |
| OrderedMaps.FilterRange | src/PostageServices/ServiceSupport.php:79-82 | a callback that holds exactly on a run of positions selects that slice |
| OrderedMaps.FilterPair | src/PostageServices/ServiceDefinitions/AbstractServiceDefinition.php:312-319 | filtering a two-entry array keeps each entry exactly when it passes, in order |
| OrderedMaps.FilterFilter | src/PostageServices/ServiceSupport.php:76-122 | two successive filters are one filter by both conditions |
| OrderedMaps.IntersectKeys | src/Plugin/Commerce/ShippingMethod/AusPost.php:545-548 | array_intersect_key keeps exactly the entries of the first array whose key is in the second, in order |
| PhpValues.Field | src/Packer/ShipmentPacking/PackableCommercePackageType.php:131-132 | reading a key of a non-array or a missing key gives NULL; otherwise the stored value |
| PhpValues.IntCast | src/Address.php:100 | the (int) cast of an all-digit string is its decimal value |
| PhpValues.LeadingZerosIgnored | src/Address.php:100 | a leading zero does not change the value of a digit string |
| PhpValues.IntCastSkipsSpace | src/Address.php:100 | the (int) cast skips leading whitespace: whitespace in front of a string does not change the integer read from it |
| PhpValues.IntCastOfIntToString | src/Address.php:109-114 | casting the decimal text of an integer back gives the integer |
| PhpValues.FloatCastOfDigits | src/PostageAssessment/Response.php:72 | the (float) cast of an all-digit string is its decimal value |
| PhpValues.NumberOf | src/Packer/ShipmentPacking/PackableCommercePackageType.php:234-237 | integers and floats are numbers, and otherwise only numeric strings |
| PhpValues.FirstIndexOf | src/Packer/ShipmentPacking/PackableCommercePackageType.php:206 | strpos: no position exactly when the character is absent, otherwise its first position |
| Units.Ceil | src/Packer/ShipmentPacking/PackableCommercePackageType.php:241 | `(int) ceil(x)` is the least integer not below x |
| Units.Trunc | src/Packer/ShipmentPacking/PackableCommercePackageType.php:169 | bcmath at scale 0 truncates toward zero |
| Units.TruncatedProductBound | src/Packer/ShipmentPacking/PackableCommerceOrderItem.php:119-120 | the bcmath product of three non-negative numbers lies between 0 and the product of their ceilings |
| Units.ConvertLength | src/Packer/ShipmentPacking/PackableCommercePackageType.php:237 | converting a length changes its unit and keeps its size |
| Units.ConvertWeight | src/Packer/ShipmentPacking/PackableCommercePackageType.php:135 | converting a weight changes its unit and keeps its mass |
| Units.ScaleWeight | src/Packer/CommerceAusPostPacker.php:54 | multiplying a weight keeps its unit and scales its mass |
| Units.MakeLength | src/Packer/ShipmentPacking/PackableCommercePackageType.php:234-237 | a Length is built exactly from a numeric number and a known unit, and otherwise the constructor throws InvalidArgumentException |
| Units.MakeWeight | src/Packer/ShipmentPacking/PackableCommercePackageType.php:130-133 | a Weight is built exactly from a numeric number and a known unit, and otherwise the constructor throws InvalidArgumentException |
| ServiceDefinition.MissingDimension | src/PostageServices/ServiceDefinitions/AbstractServiceDefinition.php:296-303 | none missing exactly when height, width, length and weight are all keys; otherwise a required key that is absent |
| ServiceDefinition.Apply | src/PostageServices/ServiceDefinitions/AbstractServiceDefinition.php:147-307 | each setter succeeds exactly when its validation passes (destination, type, code, option and sub-option checked against their lists; dimensions need the four keys) and then changes only its own property; a missing dimension key names itself in the exception |
| ServiceDefinition.ApplyOptionalKeepsRequired | src/PostageServices/ServiceDefinitions/AbstractServiceDefinition.php:109-119 | the optional setters never change label, service id, destination, type or code |
| ServiceDefinition.ConfigureValidates | src/PostageServices/ServiceDefinitions/AbstractServiceDefinition.php:96-120 | a constructed definition has a valid destination, type and code taken from its configuration; an invalid one makes construction throw InvalidArgumentException |
| ServiceDefinition.RequiredValidates | src/PostageServices/ServiceDefinitions/AbstractServiceDefinition.php:102-107 | the five chained setters succeed exactly when destination, type and code are known, store all five values, and otherwise throw InvalidArgumentException |
| ServiceDefinition.ConfigureDefaults | src/PostageServices/ServiceDefinitions/AbstractServiceDefinition.php:60-81 | with empty optional values the definition keeps no option codes, extra cover 0 and no dimensions |
| ServiceDefinition.RawDimensionsGet | src/PostageServices/ServiceDefinitions/AbstractServiceDefinition.php:272 | the dimensions start as a copy of the stored ones, key for key |
| ServiceDefinition.WrapLengthsFacts | src/PostageServices/ServiceDefinitions/AbstractServiceDefinition.php:280-286 | the length loop succeeds exactly when every edge is a number, turns each edge into millimetres and leaves other keys and their order alone |
| ServiceDefinition.MaxDimensionsSucceeds | src/PostageServices/ServiceDefinitions/AbstractServiceDefinition.php:265-290 | non-empty dimensions convert exactly when all four required entries are numbers |
| ServiceDefinition.MaxDimensionsShape | src/PostageServices/ServiceDefinitions/AbstractServiceDefinition.php:265-290 | weight becomes grams, height/width/length become millimetres, every other key is passed through, and the key order is kept |
| ServiceDefinition.AllOptions | src/PostageServices/ServiceDefinitions/AbstractServiceDefinition.php:312-320 | option_code and sub_opt_code are present exactly when non-empty, with their values, and nothing else is |
| ServiceDefinition.AbstractServiceDefinition.Blank | src/PostageServices/ServiceDefinitions/AbstractServiceDefinition.php:52-81 | a blank definition holds the property defaults |
| ServiceDefinition.AbstractServiceDefinition.Set | src/PostageServices/ServiceDefinitions/AbstractServiceDefinition.php:147-307 | a setter changes the state as Apply says, and a rejected value leaves the object unchanged |
| ServiceDefinition.AbstractServiceDefinition.SetRequired | src/PostageServices/ServiceDefinitions/AbstractServiceDefinition.php:102-107 | running the five setters on the declared defaults leaves the properties ConfigureRequired gives, or returns its exception |
| ServiceDefinition.AbstractServiceDefinition.Create | src/PostageServices/ServiceDefinitions/AbstractServiceDefinition.php:96-135 | construction succeeds exactly when Configure does, with its properties, and otherwise throws Configure's exception |
| ServiceDefinition.AbstractServiceDefinition.GetMaxDimensions | src/PostageServices/ServiceDefinitions/AbstractServiceDefinition.php:265-290 | the method computes MaxDimensionsOf of the stored dimensions |
| Deriver.HasDimensionKeys | src/Plugin/Deriver/ServiceDefinitionDeriver.php:38-45 | the check loop answers true exactly when length, width, height and weight are all keys |
| Deriver.BuildDefinition | src/Plugin/Deriver/ServiceDefinitionDeriver.php:25-53 | one derivative, built step by step, equals its specification Definition |
| Deriver.ServiceDefinitionDeriver.constructor | src/Plugin/Deriver/ServiceDefinitionDeriver.php:19-57 | a deriver starts with no derivatives |
| Deriver.ServiceDefinitionDeriver.GetDerivativeDefinitions | src/Plugin/Deriver/ServiceDefinitionDeriver.php:19-57 | the derivatives become Derive of the old ones, the base id and the default services, and are returned |
| Deriver.DeriveAppends | src/Plugin/Deriver/ServiceDefinitionDeriver.php:24-54 | with distinct fresh keys, one derivative per service is appended in catalogue order and earlier derivatives are kept |
| Deriver.DefinitionFields | src/Plugin/Deriver/ServiceDefinitionDeriver.php:25-35 | the id is base id, separator and key; service_id, label, destination, type, codes and extra cover come from the service's own keys |
| Deriver.DefinitionMaxDimensions | src/Plugin/Deriver/ServiceDefinitionDeriver.php:37-53 | max_dimensions is present exactly when the service has all four dimension keys, or the base definition has max_dimensions |
| Deriver.DefinitionFromBase | src/Plugin/Deriver/ServiceDefinitionDeriver.php:53 | every key the derivative does not set comes from the base definition, which never overrides a key it does set |
| Deriver.DerivativeLayout | src/Plugin/Deriver/ServiceDefinitionDeriver.php:25-50 | nine keys in a fixed order, a tenth exactly when the dimensions are complete, all distinct |
| Deriver.EntryKeysMismatch | src/Plugin/Deriver/ServiceDefinitionDeriver.php:33-48 | a default entry has no sub_option_code key (it uses sub_opt_code), so the derivative's is NULL, and its dimensions use thickness, so no derivative gets max_dimensions from it |
| Deriver.DerivedFromDefaults | src/Plugin/Deriver/ServiceDefinitionDeriver.php:19-57 | the 48 default services yield 48 derivatives in catalogue order, each with its id and label, a NULL sub_option_code and no max_dimensions |
| Deriver.CorrectedEntryKeepsCatalogue | src/Plugin/Deriver/ServiceDefinitionDeriver.php:33-48 | read the way the catalogue spells its keys, every default entry's definition carries the entry's sub-option, and an entry with letter limits gets them as max_dimensions with its thickness as the height |
| Deriver.CorrectedSubOption | src/Plugin/Deriver/ServiceDefinitionDeriver.php:33 | the corrected definition's sub_option_code is the entry's sub_opt_code |
| Deriver.CorrectedMaxDimensions | src/Plugin/Deriver/ServiceDefinitionDeriver.php:37-48 | an entry whose max_dimensions has length, width, thickness and weight gets them as max_dimensions, the thickness under height |
| ServiceLookup.GetService | src/PostageAssessment/SupportedServices.php:840-845 | succeeds exactly when the key is in the table, with the entry stored under that key; otherwise "Requested service '…' does not exist." |
| ServiceLookup.TypeArgument | src/PostageServices/ServiceSupport.php:77-97 | NULL (or the empty string, which PHP's switch compares equal to NULL) means no type filter, "parcel" and "letter" select their type, anything else throws "Unknown service type '…'." |
| ServiceLookup.DestinationArgument | src/PostageServices/ServiceSupport.php:100-122 | NULL or empty means no destination filter, "domestic" and "international" select theirs, anything else throws "Unknown service destination '…'." |
| ServiceLookup.GetServices | src/PostageServices/ServiceSupport.php:58-125 | fails exactly when an argument is unknown, the type being checked first; otherwise the table filtered by the requested type and destination, order kept |
| ServiceLookup.MatchesAsFilters | src/PostageServices/ServiceSupport.php:76-122 | filtering once by both conditions equals filtering by type and then by destination, as the source does |
| ServiceLookup.GetServicesByNames | src/PostageServices/ServiceSupport.php:58-125 | the names of a type and destination filter exactly by them |
| ServiceLookup.GetServicesIntersects | src/PostageServices/ServiceSupport.php:58-125 | the services of a type and destination are exactly those in both the type's list and the destination's list |
| ServiceLookup.FilterMembership | src/PostageServices/ServiceSupport.php:79-82 | array_filter keeps exactly the entries the callback accepts |
| ServiceLookup.GetServicesByKeys | src/PostageAssessment/SupportedServices.php:943-958 | the lookup loop computes ServicesByKeysFrom |
| ServiceLookup.ServicesByKeysContents | src/PostageAssessment/SupportedServices.php:943-958 | succeeds exactly when non-existing keys are ignored or every key exists; the result maps each existing requested key to its service; a failure is ServiceNotFoundException |
| ServiceSupport.HasServiceAsWritten | src/PostageServices/ServiceSupport.php:21-23 | as written: the call to the undefined services() method is fatal for every key |
| ServiceSupport.GetServiceAsWritten | src/PostageServices/ServiceSupport.php:37-42 | as written: every lookup fails with hasService's fatal error |
| ServiceSupport.KnownKeyUnreachableAsWritten | src/PostageServices/ServiceSupport.php:21-42 | AUS_SERVICE_OPTION_STANDARD is in the catalogue, yet getService cannot return it |
| ServiceSupport.GetServicesByKeysAsWritten | src/PostageServices/ServiceSupport.php:140-155 | as written: only an empty key list succeeds; any key reaches the fatal hasService, which is not caught |
| ServiceSupport.GetService | src/PostageServices/ServiceSupport.php:37-42 | corrected (hasService over ServiceDefinitions::services()): succeeds exactly for catalogue keys, with that entry |
| ServiceSupport.EveryKeyFound | src/PostageServices/ServiceSupport.php:37-42 | corrected: every catalogue entry is found under its own key |
| ServiceSupport.SupportedPackageTypes | src/PostageServices/ServiceSupport.php:163-168 | parcel then letter, exactly the strings that parse as service types |
| ServiceSupport.SupportedDestinations | src/PostageServices/ServiceSupport.php:176-181 | domestic then international, exactly the strings that parse as destinations |
| ServiceSupport.GetMaxParcelDimensions | src/PostageServices/ServiceSupport.php:196-206 | succeeds exactly for a supported destination, with its limits; otherwise "Unknown package destination '…'." |
| SupportedServices.Table | src/PostageAssessment/SupportedServices.php:35-813 | the 13 entries are those of the ServiceDefinitions catalogue, in the same order |
| SupportedServices.TableShape | src/PostageAssessment/SupportedServices.php:35-813 | ten domestic parcel services come first, then three international parcel services |
| SupportedServices.FilterParcels | src/PostageAssessment/SupportedServices.php:861-928 | on such a table, parcels filtered by destination are the first ten or the last three, and parcels alone are the whole table |
| SupportedServices.ParcelsByDestination | src/PostageAssessment/SupportedServices.php:861-928 | domestic parcels are the first ten entries, international ones the rest, and every entry is a parcel |
| SupportedServices.NoLetterServices | src/PostageAssessment/SupportedServices.php:861-928 | asking for letters gives an empty list for any valid destination |
| ShippingAddress.IsDomestic | src/Address.php:70-85 | NULL exactly when the shipment has no shipping address; otherwise true iff the store's country code equals the recipient's |
| ShippingAddress.RecipientPostcode | src/Address.php:96-101 | NULL exactly when the address is empty; otherwise an all-digit postcode becomes its decimal value |
| ShippingAddress.ShipperPostcode | src/Address.php:109-114 | the store postcode cast to int; an empty postcode casts to 0 |
| ShippingAddress.RecipientCountryCode | src/Address.php:125-130 | NULL exactly when the address is empty, otherwise the recipient's country code |
| ShippingAddress.PostcodeDropsLeadingZero | src/Address.php:100 | the (int) cast drops a leading zero from an all-digit postcode |
| ShippingAddress.DarwinPostcode | src/Address.php:100 | the Darwin postcode "0800" is sent as 800 |
| ShippingAddress.PaddedShipperPostcode | src/Address.php:109-114 | a store postcode of whitespace then digits is sent as the digits' value |
| PostageResponse.Postage | src/PostageAssessment/Response.php:59-73 | each of the three ResponseExceptions exactly on its condition, in order; otherwise the float cast of postage_result.total_cost |
| PostageResponse.QuotedReplyRoundTrip | src/PostageAssessment/Response.php:59-73 | a reply quoting a total cost yields exactly that cost |
| PostageResponse.ScalarResultHasNoTotal | src/PostageAssessment/Response.php:68-70 | a postage_result that is not an array is reported as lacking a total cost |
| PostageResponse.Response.constructor | src/PostageAssessment/Response.php:17-24 | a new response has neither request nor reply |
| PostageResponse.Response.SetRequest | src/PostageAssessment/Response.php:29-32 | stores the request and leaves the reply unchanged |
| PostageResponse.Response.SetResponse | src/PostageAssessment/Response.php:44-47 | stores the reply and leaves the request unchanged |
| PostageResponse.Response.GetPostage | src/PostageAssessment/Response.php:59-73 | returns Postage of the stored reply |
| PostageRequest.PackageTypeOf | src/PostageAssessment/Request.php:115-120 | fails with "Package type is not set." exactly when unset, otherwise returns it |
| PostageRequest.PackedBoxOf | src/PostageAssessment/Request.php:133-138 | fails with "Packed box is not set." exactly when unset, otherwise returns it |
| PostageRequest.AddressOf | src/PostageAssessment/Request.php:151-156 | fails with "Address is not set." exactly when unset, otherwise returns it |
| PostageRequest.ShipmentOf | src/PostageAssessment/Request.php:169-174 | fails with "Shipment is not set." exactly when unset, otherwise returns it |
| PostageRequest.ServiceDefinitionOf | src/PostageAssessment/Request.php:187-192 | fails with "Service definition is not set." exactly when unset, otherwise returns it |
| PostageRequest.IsDomestic | src/PostageAssessment/Request.php:197-205 | succeeds exactly when an address is set and not empty, with the address's answer; an empty address fails with "Package destination could not be determined." |
| PostageRequest.EdgeCentimetres | src/PostageAssessment/Request.php:265-274 | a packed edge converted to centimetres and rounded up to the next whole number |
| PostageRequest.PackedDimension | src/PostageAssessment/Request.php:265-274 | succeeds exactly when a packed box is set, with that edge in whole centimetres |
| PostageRequest.Dimensions | src/PostageAssessment/Request.php:217-238 | keys length, width, height, weight in that order, the first three being the rounded-up centimetre edges; fails when no box is set; with a box it succeeds exactly when the shipping weight is computed from the box and its weight in kilograms, fails with that computation's error otherwise, and sends that weight's number |
| PostageRequest.DimensionsFailAsWritten | src/PostageAssessment/Request.php:217-238 | as written (calculateParcelWeight undefined on ServiceSupport): without a box "Packed box is not set.", with one the \Error of the missing method |
| PostageRequest.ServiceCodeOf | src/PostageAssessment/Request.php:243-245 | the service definition's code, or the not-set error |
| PostageRequest.ExtraServiceOptions | src/PostageAssessment/Request.php:250-252 | the definition's getAllOptions(), or the not-set error |
| PostageRequest.InsuranceOptionsOf | src/PostageAssessment/Request.php:289-307 | succeeds exactly when all three insurance properties are set; otherwise the error names a property that is unset |
| PostageRequest.NoCoverNoInsurance | src/PostageAssessment/Request.php:313-317 | a service with no extra cover (NULL or 0) insures nothing |
| PostageRequest.DisabledNoInsurance | src/PostageAssessment/Request.php:319-322 | disabled insurance insures nothing |
| PostageRequest.LimitedInsuranceCapped | src/PostageAssessment/Request.php:324-342 | with the limit on, the amount never exceeds the service's extra cover, and below the cap it is the order total times the percentage rounded up |
| PostageRequest.UnlimitedInsurance | src/PostageAssessment/Request.php:324-342 | with the limit off, the amount is the order total times the percentage rounded up |
| PostageRequest.Request.constructor | src/PostageAssessment/Request.php:93-95 | a new request has every property unset |
| PostageRequest.Request.SetPackageType | src/PostageAssessment/Request.php:100-110 | accepts exactly the known service types, changing only the package type; otherwise fails with "Unknown package type '…'." and changes nothing |
| PostageRequest.Request.SetPackedBox | src/PostageAssessment/Request.php:125-128 | sets the packed box and nothing else |
| PostageRequest.Request.SetAddress | src/PostageAssessment/Request.php:143-146 | sets the address and nothing else |
| PostageRequest.Request.SetShipment | src/PostageAssessment/Request.php:161-164 | sets the shipment and nothing else |
| PostageRequest.Request.SetServiceDefinition | src/PostageAssessment/Request.php:179-182 | sets the service definition and nothing else |
| PostageRequest.Request.SetInsuranceOptions | src/PostageAssessment/Request.php:279-284 | stores enabled cast to bool, the percentage cast to float and the limit as given, and nothing else |
| PostageRequest.Request.GetInsuranceOptions | src/PostageAssessment/Request.php:289-307 | the required-property loop returns InsuranceOptionsOf of the state |
| PostageRequest.Request.GetInsuranceAmount | src/PostageAssessment/Request.php:312-343 | returns InsuranceAmount of the state |
| PostageClient.ClientFor | src/PostageAssessment/Client.php:52-65 | fails with the no-key ClientException exactly when no key is set; returns the cached SDK client when there is one, otherwise a new one authenticated with the key |
| PostageClient.OptionKey | src/PostageAssessment/Client.php:88-95 | the key mapping renames sub_opt_code and leaves every other key as it is |
| PostageClient.RenameIntoKeys | src/PostageAssessment/Client.php:92-98 | the renaming loop keeps every key already present and adds only mapped option keys |
| PostageClient.NoSubOptCodeAfterRename | src/PostageAssessment/Client.php:88-98 | after the loop no sub_opt_code key is left |
| PostageClient.RenamedDefinitionOptions | src/PostageAssessment/Client.php:92-98 | a definition's options come out as option_code and suboption_code with the definition's values, and nothing else |
| PostageClient.MethodName | src/PostageAssessment/Client.php:103-116 | the method is one of the four calculate…Postage calls of the SDK |
| PostageClient.MethodNameInjective | src/PostageAssessment/Client.php:103-116 | distinct destination/type pairs select distinct SDK calls |
| PostageClient.LocatedOptionsFacts | src/PostageAssessment/Client.php:73-83 | service_code comes first, the dimensions are copied, and the domestic branch adds the two postcodes while the international one adds the country code |
| PostageClient.DomesticOptionsFacts | src/PostageAssessment/Client.php:73-80 | a domestic request carries exactly service_code, the four dimensions and the shipper and recipient postcodes |
| PostageClient.InternationalOptionsFacts | src/PostageAssessment/Client.php:73-83 | an international request carries exactly service_code, the four dimensions and the recipient country code |
| PostageClient.OptionsOfContents | src/PostageAssessment/Client.php:73-100 | the complete option array: location keys by destination, no sub_opt_code, and option_code / suboption_code taken from the definition |
| PostageClient.OptionsOfPlaces | src/PostageAssessment/Client.php:73-100 | the service code comes first, the dimensions are as given, and the postcodes or the country are present by destination, untouched by the merge |
| PostageClient.OptionsOfExtras | src/PostageAssessment/Client.php:85-100 | the definition's option and sub-option codes reach the option array as option_code and suboption_code, and sub_opt_code never does |
| PostageClient.PostageCall | src/PostageAssessment/Client.php:70-116 | a request without an address fails with "Address is not set." before anything else |
| PostageClient.PostageCallMade | src/PostageAssessment/Client.php:70-116 | the call is built exactly when address, dimensions, definition and destination are all available, and is the chosen method with OptionsOf as its argument |
| PostageClient.Client.constructor | src/PostageAssessment/Client.php:33-35 | stores the key and starts with no SDK client |
| PostageClient.Client.SetApiKey | src/PostageAssessment/Client.php:40-47 | accepts exactly the non-empty keys; an empty key fails and leaves the key as it was |
| PostageClient.Client.GetClient | src/PostageAssessment/Client.php:52-65 | returns ClientFor of the old state and caches the client it returns |
| PostageClient.Client.CalculatePostage | src/PostageAssessment/Client.php:70-124 | succeeds exactly when the quote does, returning a fresh response holding the request and the reply; the client is created and cached only when the call is reached |
| PostageClient.RenameOptions | src/PostageAssessment/Client.php:85-98 | the renaming loop computes RenameInto |
| PostageClient.BuildMethodName | src/PostageAssessment/Client.php:103-116 | the string-building steps compute MethodName |
| PostageClient.BuildCall | src/PostageAssessment/Client.php:71-116 | the method's steps compute PostageCall |
| AusPostPacker.UnitWeight | src/Packer/CommerceAusPostPacker.php:91-104 | an empty weight field gives 0 kg, otherwise the product's weight |
| AusPostPacker.ShipmentItemOf | src/Packer/CommerceAusPostPacker.php:48-56 | the shipment item keeps the order item's id, title and quantity, weighs the unit weight times the quantity and declares the unit price times the quantity |
| AusPostPacker.ShipmentItems | src/Packer/CommerceAusPostPacker.php:40-57 | never more shipment items than order items |
| AusPostPacker.ShipmentItemsFromOrder | src/Packer/CommerceAusPostPacker.php:40-57 | every shipment item comes from a shippable order item, every shippable order item yields one, and none is dropped exactly when all are shippable |
| AusPostPacker.ShipmentItemsSound | src/Packer/CommerceAusPostPacker.php:40-57 | every shipment item is the item of some shippable order item |
| AusPostPacker.ShipmentItemsComplete | src/Packer/CommerceAusPostPacker.php:40-57 | every shippable order item contributes its shipment item |
| AusPostPacker.ShipmentItemsCount | src/Packer/CommerceAusPostPacker.php:40-57 | the shipment has as many items as the order exactly when every order item is shippable |
| AusPostPacker.NothingShippable | src/Packer/CommerceAusPostPacker.php:40-46 | no shipment items exactly when no order item has a purchased entity with a weight field |
| AusPostPacker.Pack | src/Packer/CommerceAusPostPacker.php:32-74 | no proposed shipment when nothing is shippable; otherwise exactly one "Primary Shipment" holding all shipment items, the order id, the type and the profile |
| PackableItems.DimensionMillimetres | src/Packer/ShipmentPacking/PackableCommerceOrderItem.php:147-179 | no purchased entity is an error, a product whose bundle has no dimensions field is the InvalidArgumentException "Field dimensions is unknown.", an empty dimensions field measures 0, and a bad length is an InvalidArgumentException |
| PackableItems.Dimension | src/Packer/ShipmentPacking/PackableCommerceOrderItem.php:147-179 | the millimetre figure rounded up to a whole number, with the same errors (a missing dimensions field included) |
| PackableItems.WeightGrams | src/Packer/ShipmentPacking/PackableCommerceOrderItem.php:78-93 | defined exactly when the product has a weight field; an empty weight is 0 g, otherwise the weight in grams rounded up |
| PackableItems.Volume | src/Packer/ShipmentPacking/PackableCommerceOrderItem.php:101-121 | defined exactly when all three edges are, so only for a product with a dimensions field; no purchased entity and a missing dimensions field give the same errors getDimension throws |
| PackableItems.NoDimensionsNoSize | src/Packer/ShipmentPacking/PackableCommerceOrderItem.php:147-179 | a product with an empty dimensions field has zero edges and zero volume |
| PackableItems.NoDimensionsFieldNoSize | src/Packer/ShipmentPacking/PackableCommerceOrderItem.php:101-121 | a product whose bundle has no dimensions field fails every edge and the volume with "Field dimensions is unknown." |
| PackableItems.VolumeWithinEdges | src/Packer/ShipmentPacking/PackableCommerceOrderItem.php:101-121 | the bcmath volume of non-negative edges lies between 0 and the product of the rounded-up edges |
| PackageTypes.PlainKeyExists | src/Packer/ShipmentPacking/PackableCommercePackageType.php:205-210 | a key without a dot is a top-level key lookup |
| PackageTypes.DottedKeyExists | src/Packer/ShipmentPacking/PackableCommercePackageType.php:212-218 | a one-dot key is a lookup two levels deep |
| PackageTypes.FirstMissing | src/Packer/ShipmentPacking/PackableCommercePackageType.php:72-78 | none missing exactly when every key exists; otherwise a key of the list that does not exist |
| PackageTypes.Edge | src/Packer/ShipmentPacking/PackableCommercePackageType.php:233-245 | a converted edge is in millimetres, and a bad length is an InvalidArgumentException |
| PackageTypes.CheckRequiredKeys | src/Packer/ShipmentPacking/PackableCommercePackageType.php:61-78 | the required-key loop finds FirstMissing of the nine required keys |
| PackageTypes.NewPackageType | src/Packer/ShipmentPacking/PackableCommercePackageType.php:56-86 | the constructor's steps compute Construct |
| PackageTypes.MissingKeyFirst | src/Packer/ShipmentPacking/PackableCommercePackageType.php:72-85 | a missing required key fails construction, naming the first missing key, whatever the size check would say |
| PackageTypes.ConstructSucceeds | src/Packer/ShipmentPacking/PackableCommercePackageType.php:56-86 | construction succeeds exactly when every key is present, the three edges are valid and the size check answers TRUE; the box keeps its definition, destination and edges |
| PackageTypes.RejectionCarriesReason | src/Packer/ShipmentPacking/PackableCommercePackageType.php:263-282 | a PackageSizeException becomes a ShipmentPackerException whose message ends with its reason |
| PackageTypes.ConstructionFailsAsWritten | src/Packer/ShipmentPacking/PackableCommercePackageType.php:56-86 | as written (validatePackageSize undefined on ServiceSupport): construction always fails; with a key missing it is the ShipmentPackerException, otherwise a bad edge or, once all edges are valid, the \Error of the missing method |
| PackageTypes.InnerWidth | src/Packer/ShipmentPacking/PackableCommercePackageType.php:142-144 | the width in millimetres rounded up |
| PackageTypes.InnerLength | src/Packer/ShipmentPacking/PackableCommercePackageType.php:149-151 | the length in millimetres rounded up |
| PackageTypes.InnerDepth | src/Packer/ShipmentPacking/PackableCommercePackageType.php:156-158 | the height in millimetres rounded up |
| PackageTypes.OuterWidth | src/Packer/ShipmentPacking/PackableCommercePackageType.php:102-106 | outer width equals inner width |
| PackageTypes.OuterLength | src/Packer/ShipmentPacking/PackableCommercePackageType.php:111-115 | outer length equals inner length |
| PackageTypes.OuterDepth | src/Packer/ShipmentPacking/PackableCommercePackageType.php:120-124 | outer depth equals inner depth |
| PackageTypes.EmptyWeight | src/Packer/ShipmentPacking/PackableCommercePackageType.php:129-137 | defined exactly when the weight is a valid measurement, and then that weight in grams rounded up |
| PackageTypes.InnerVolumeAsWritten | src/Packer/ShipmentPacking/PackableCommercePackageType.php:163-171 | as written: bcmath receives Length objects, not numbers, and the volume is 0 |
| PackageTypes.InnerVolumeWithinEdges | src/Packer/ShipmentPacking/PackableCommercePackageType.php:163-171 | corrected: the volume of non-negative edges lies between 0 and the product of the rounded-up edges |
| PackageTypes.InnerVolumeAsWrittenLosesCube | src/Packer/ShipmentPacking/PackableCommercePackageType.php:165-169 | a 100 mm cube has volume 1000000 but is reported as 0 |
| PackageTypes.LimitGrams | src/PostageServices/ServiceDefinitions.php:50-63 | the parcel weight limit is 22 kg domestic and 20 kg international |
| PackageTypes.MaxWeightAsWritten | src/Packer/ShipmentPacking/PackableCommercePackageType.php:178-192 | as written: the undefined isDomestic is falsy, so every box gets the international limit |
| PackageTypes.MaxWeight | src/Packer/ShipmentPacking/PackableCommercePackageType.php:178-192 | corrected: 22000 g for a domestic box, 20000 g otherwise |
| PackageTypes.DomesticBoxUnderweighted | src/Packer/ShipmentPacking/PackableCommercePackageType.php:179 | a domestic box may carry 22 kg but as written is held to 20 kg |
| Packing.PackedWeight | src/Packer/ShipmentPacking/PackedBox.php:80-82 | the packed box's weight is the library's gram figure |
| Packing.PackedLength | src/Packer/ShipmentPacking/PackedBox.php:87-92 | the packed length is the box's inner length in millimetres |
| Packing.PackedWidth | src/Packer/ShipmentPacking/PackedBox.php:97-102 | the packed width is the box's inner width in millimetres |
| Packing.PackedHeight | src/Packer/ShipmentPacking/PackedBox.php:107-112 | the packed height is the box's inner depth in millimetres |
| Packing.WrapAsWritten | src/Packer/ShipmentPacking/ShipmentPacker.php:121-125 | as written: wrapping succeeds only for no boxes at all; any box hits the private constructor and is a fatal error |
| Packing.WrapBoxes | src/Packer/ShipmentPacking/PackedBox.php:73-75 | corrected (through create()): one wrapper per library box, in order, each holding its box |
| Packing.PrivateConstructorBreaksPacking | src/Packer/ShipmentPacking/PackedBox.php:44-46 | for any non-empty packing the as-written wrap fails fatally while the corrected one returns as many boxes |
| Packing.BoxPacker.constructor | src/Packer/ShipmentPacking/ShipmentPacker.php:48-51 | the library packer starts with no boxes and no items |
| Packing.BoxPacker.AddBox | src/Packer/ShipmentPacking/ShipmentPacker.php:97-99 | appends a box and leaves the items alone |
| Packing.BoxPacker.AddItem | src/Packer/ShipmentPacking/ShipmentPacker.php:101-103 | appends an item and leaves the boxes alone |
| Packing.BoxPacker.Pack | src/Packer/ShipmentPacking/ShipmentPacker.php:105 | the packing is the algorithm's answer for the boxes and items given |
| Packing.BuildAllAppends | src/Packer/ShipmentPacking/ShipmentPacker.php:68-73 | building in a loop keeps what was there and appends, in order, only values built from the definitions |
| Packing.BuildAllStops | src/Packer/ShipmentPacking/ShipmentPacker.php:68-73 | the loop stops at the first failing definition, with that failure, keeping the ones built before it; with no failure all are appended |
| Packing.WrapItems | src/Packer/ShipmentPacking/ShipmentPacker.php:86-91 | one packable item per order item, in order |
| Packing.ShipmentPacker.constructor | src/Packer/ShipmentPacking/ShipmentPacker.php:36-51 | starts with no package types and no order items |
| Packing.ShipmentPacker.AddPackageType | src/Packer/ShipmentPacking/ShipmentPacker.php:56-63 | appends the constructed package type exactly when construction succeeds; otherwise changes nothing and passes its exception on |
| Packing.ShipmentPacker.AddPackageTypes | src/Packer/ShipmentPacking/ShipmentPacker.php:68-73 | the package types become BuildAll of the old ones and the definitions; fails exactly when one definition fails |
| Packing.ShipmentPacker.AddOrderItem | src/Packer/ShipmentPacking/ShipmentPacker.php:78-81 | appends the wrapped order item and nothing else |
| Packing.ShipmentPacker.AddOrderItems | src/Packer/ShipmentPacking/ShipmentPacker.php:86-91 | appends the wrapped order items in order and nothing else |
| Packing.ShipmentPacker.FeedPacker | src/Packer/ShipmentPacking/ShipmentPacker.php:97-103 | hands every package type and every order item to the library packer, in order |
| Packing.ShipmentPacker.PackAsWritten | src/Packer/ShipmentPacking/ShipmentPacker.php:96-125 | as written: the packer is fed, and its boxes go through WrapAsWritten |
| Packing.ShipmentPacker.Pack | src/Packer/ShipmentPacking/ShipmentPacker.php:96-125 | corrected: the packer is fed, and its boxes come back wrapped one for one |
| AusPostShipping.Multiplier | src/Plugin/Commerce/ShippingMethod/AusPost.php:617-620 | an empty rate_multiplier setting means a multiplier of 1 |
| AusPostShipping.RoundingMode | src/Plugin/Commerce/ShippingMethod/AusPost.php:621-624 | an empty round setting means PHP_ROUND_HALF_UP |
| AusPostShipping.ScaledPostage | src/Plugin/Commerce/ShippingMethod/AusPost.php:626-628 | a multiplier of at most 1 leaves the postage as it is |
| AusPostShipping.ScalingNeverLowers | src/Plugin/Commerce/ShippingMethod/AusPost.php:626-628 | scaling never lowers a non-negative postage, and a multiplier above 1 multiplies it |
| AusPostShipping.DefaultCostIsRounded | src/Plugin/Commerce/ShippingMethod/AusPost.php:615-633 | with both options empty the cost is the postage rounded half up |
| AusPostShipping.PossiblePackageTypes | src/Plugin/Commerce/ShippingMethod/AusPost.php:496-526 | no destination gives every type; an unknown destination throws "Unknown package destination '…'."; otherwise exactly the types outside commerce_auspost plus the plugin's own types for that destination, order kept |
| AusPostShipping.ForeignTypesAlwaysOffered | src/Plugin/Commerce/ShippingMethod/AusPost.php:512-516 | a package type not defined by the plugin is offered for every valid destination |
| AusPostShipping.Truthy | src/Plugin/Commerce/ShippingMethod/AusPost.php:547 | array_filter keeps exactly the non-empty settings of the array: every kept entry is one of them, and every one of them is kept |
| AusPostShipping.EnabledPackageTypes | src/Plugin/Commerce/ShippingMethod/AusPost.php:540-552 | fails exactly as getPossiblePackageTypes does; with no destination or no setting it is all possible types, otherwise exactly the possible types whose key has a truthy setting: each kept type is possible and ticked, and each possible ticked type is kept |
| AusPostShipping.TickedTypeEnabled | src/Plugin/Commerce/ShippingMethod/AusPost.php:540-552 | a possible type with a non-empty entry of its own in the configured list is among the enabled types |
| AusPostShipping.AcceptedTypesExtend | src/Plugin/Commerce/ShippingMethod/AusPost.php:579-588 | the loop keeps the types accepted before and adds only types the constructor accepts, skipping rejected ones |
| AusPostShipping.Copies | src/Plugin/Commerce/ShippingMethod/AusPost.php:592-595 | an item is added quantity times, none for a quantity of 0 or below |
| AusPostShipping.ItemCopiesSingle | src/Plugin/Commerce/ShippingMethod/AusPost.php:590-596 | one order item of quantity q gives q copies of its packable item |
| AusPostShipping.GetPackedBoxes | src/Plugin/Commerce/ShippingMethod/AusPost.php:571-599 | the method computes PackedBoxes of the enabled types and order items |
| AusPostShipping.AddPackageTypes | src/Plugin/Commerce/ShippingMethod/AusPost.php:579-588 | the packer ends up holding exactly AcceptedTypes, and its order items are untouched |
| AusPostShipping.AddItemCopies | src/Plugin/Commerce/ShippingMethod/AusPost.php:590-596 | the packer ends up holding ItemCopies of the order items, and its package types are untouched |
| AusPostShipping.BoxRequest | src/Plugin/Commerce/ShippingMethod/AusPost.php:388-393 | the request is built exactly when the service type is known, with address, shipment, box, type and definition set and no insurance options |
| AusPostShipping.QuoteThroughClient | src/Plugin/Commerce/ShippingMethod/AusPost.php:397 | once the SDK client exists, calculatePostage asks the carrier through it |
| AusPostShipping.BoxCostPriced | src/Plugin/Commerce/ShippingMethod/AusPost.php:386-420 | a box is priced exactly when its request is built, the carrier answers and the answer has a total; a caught client or response error skips the service |
| AusPostShipping.BoxesTotalStep | src/Plugin/Commerce/ShippingMethod/AusPost.php:386-421 | a box that fails ends the loop with its error, a caught error skips the service, and a priced box adds its cost and moves on |
| AusPostShipping.BoxesTotalAllPriced | src/Plugin/Commerce/ShippingMethod/AusPost.php:386-421 | the service gets a total exactly when every one of its boxes is priced |
| AusPostShipping.CaughtFailureSkipsService | src/Plugin/Commerce/ShippingMethod/AusPost.php:404-413 | a caught error on any box, after priced ones, skips the whole service (continue 2) |
| AusPostShipping.BoxesTotalSplit | src/Plugin/Commerce/ShippingMethod/AusPost.php:386-421 | the total over two runs of boxes is the total of the second run started from the first run's total |
| AusPostShipping.UniformBoxesTotal | src/Plugin/Commerce/ShippingMethod/AusPost.php:416-420 | n boxes each costing c add n·c to the total |
| AusPostShipping.ServiceRateFacts | src/Plugin/Commerce/ShippingMethod/AusPost.php:357-434 | a service not enabled gives no rate; a rate belongs to an enabled service with a valid definition, carries its id, the definition's service id and label, and is in AUD, its amount being the total of the costs of the boxes the enabled types pack into |
| AusPostShipping.NoBoxesFreeRate | src/Plugin/Commerce/ShippingMethod/AusPost.php:372-434 | an enabled service whose packing yields no boxes is offered at 0 AUD |
| AusPostShipping.AcceptedTypesAsWritten | src/Plugin/Commerce/ShippingMethod/AusPost.php:579-588 | as written: the loop succeeds exactly when every type lacks a required key, and then accepts none; otherwise it stops with a bad edge or the \Error |
| AusPostShipping.LackingKeysSplit | src/Plugin/Commerce/ShippingMethod/AusPost.php:579-588 | every type lacks a key exactly when the first does and every later one does |
| AusPostShipping.PackedBoxesAsWritten | src/Plugin/Commerce/ShippingMethod/AusPost.php:571-599 | as written: packing fails, with a bad edge or the \Error, once any enabled type has all its required keys |
| AusPostShipping.UndefinedValidatorAbortsService | src/Plugin/Commerce/ShippingMethod/AusPost.php:372-384 | as written: an enabled service with such a type ends calculateRates with an error, which is not the ItemTooLargeException that skips it |
| AusPostShipping.UndefinedWeigherFailsBox | src/Plugin/Commerce/ShippingMethod/AusPost.php:386-398 | as written: every box's quote fails with the \Error of the missing calculateParcelWeight |
| AusPostShipping.UndefinedWeigherAbortsService | src/Plugin/Commerce/ShippingMethod/AusPost.php:386-413 | as written: an enabled service packing into at least one box ends calculateRates with that \Error, which neither catch handles |
| AusPostShipping.ItemTooLargeSkipsService | src/Plugin/Commerce/ShippingMethod/AusPost.php:374-384 | when packing throws ItemTooLargeException the service is skipped |
| AusPostShipping.RatesFromFacts | src/Plugin/Commerce/ShippingMethod/AusPost.php:355-437 | the loop keeps the rates collected before and appends exactly one rate per definition that produces one: each appended rate is its definition's, the definitions are in strictly increasing order, and none producing a rate is missed |
| AusPostShipping.ShiftedIndices | src/Plugin/Commerce/ShippingMethod/AusPost.php:355-437 | one pass of the loop: the first definition's rate, if any, goes before those of the later definitions |
| AusPostShipping.ShiftedProduce | src/Plugin/Commerce/ShippingMethod/AusPost.php:355-437 | after a pass every rate still belongs to its definition, in increasing order |
| AusPostShipping.ShiftedComplete | src/Plugin/Commerce/ShippingMethod/AusPost.php:355-437 | after a pass every definition producing a rate is still accounted for |
| AusPostShipping.Rates | src/Plugin/Commerce/ShippingMethod/AusPost.php:338-348 | an unconfigured method throws ConfigurationException; an empty address gives no rates |
| AusPostShipping.RatesForEnabledServices | src/Plugin/Commerce/ShippingMethod/AusPost.php:338-438 | each rate belongs to a service definition whose id it carries, the definitions in strictly increasing order (so at most one rate each, in their order), each in AUD and for an enabled service; with distinct definition keys the rate ids are distinct |
| AusPostShipping.RatedServices | src/Plugin/Commerce/ShippingMethod/AusPost.php:357-434 | every rate a service definition yields carries its id, is in AUD and is for an enabled service |
| AusPostShipping.ServicesRated | src/Plugin/Commerce/ShippingMethod/AusPost.php:355-437 | the loop's rates belong, in increasing order, to definitions whose ids they carry, each in AUD and for an enabled service |
| AusPostShipping.IncreasingWithin | src/Plugin/Commerce/ShippingMethod/AusPost.php:355-437 | there are no more rates than service definitions |
| AusPostShipping.AnnotatedServiceIds | src/Plugin/Commerce/ShippingMethod/AusPost.php:42-137 | the 48 service ids the plugin annotation lists, each the service-definition plugin id, a colon and a service key |
| AusPostShipping.AnnotationNamesEveryDerivative | src/Plugin/Commerce/ShippingMethod/AusPost.php:42-137 | the annotation lists exactly the derivative ids the deriver builds from the defaults, in the same order |
| AusPostShipping.AusPost.constructor | src/Plugin/Commerce/ShippingMethod/AusPost.php:215-244 | the shipping method keeps its settings, its service definitions and its client |
| AusPostShipping.AusPost.CalculateRates | src/Plugin/Commerce/ShippingMethod/AusPost.php:338-438 | the method computes Rates; the API key is set only when the method is configured and the address is not empty |
| AusPostShipping.AusPost.RatesOf | src/Plugin/Commerce/ShippingMethod/AusPost.php:355-437 | the loop over service definitions computes RatesFrom |
| AusPostShipping.AusPost.ServiceRateOf | src/Plugin/Commerce/ShippingMethod/AusPost.php:358-434 | one service's step computes ServiceRate |
| AusPostShipping.AusPost.BoxesTotalOf | src/Plugin/Commerce/ShippingMethod/AusPost.php:386-421 | the loop over packed boxes computes BoxesTotal from 0 |
| AusPostShipping.AusPost.BoxCostOf | src/Plugin/Commerce/ShippingMethod/AusPost.php:387-420 | one box's step computes BoxCost |

## Left out

- The box-packing algorithm of the `dvdoug/boxpacker` library is a parameter (`Packing.PackAlgorithm`); only the adapter code around it is modelled, so nothing is claimed about how items are placed.
- `validatePackageSize` and `calculateParcelWeight` are called on `ServiceSupport`, which defines neither (see Findings); the model takes the checks the calls evidently mean as parameters (`SizeValidator`, `ParcelWeigher`), so the size limits applied and the weight entry sent to PAC are whatever those parameters say.
- The weight entry of the dimensions is sent as a number, where `Weight::getNumber()` of the physical module gives a numeric string.
- The rounder service and its four rounding modes are a parameter (`Rounder`); `calculateRates` is proved to hand it the multiplied cost and to use what it returns.
- The AusPost PAC SDK, Guzzle and the network are a parameter (`Carrier`); the client is modelled up to the SDK call and from the returned array on.
- Logging, the dependency-injection container, translation (`t()`) and the event dispatcher have no effect on the modelled results and are left out.
- The services file is not part of this model. The model assumes, as the code reads, that the container hands `calculateRates` a fresh shipment packer for each service and a fresh postage request for each box (`commerce_auspost.shipment_packer` and `commerce_auspost.postage_assessment.request` not shared); a shared packer would keep the package types and items of earlier services.
- The plugin manager for service definitions, the annotation class and the plugin class only wire the derivatives into Drupal's plugin system; the derivation itself is modelled by `Deriver`.
- The configuration form is left out except for the `isConfigured` test it feeds.
- Floating-point numbers are modelled as exact reals; PHP's `(float)` rounding and `ceil` of a float are exact here.
- Currency conversion of a `Price` is the identity: every price in the model is in Australian dollars.
- `PostageRequest.InsuranceAmount` models `getInsuranceAmount()`, which nothing in the core calls; the client sends no extra-cover amount, as in the source.
- `getPackedBoxes()` is a generator in the source; the model produces all boxes at once, and the as-written variant fails on the first box, which is where the generator would first fail.
- `PackedBox::__call` (forwarding to the library box) and `PackedBox::getVolume()` are not modelled; the wrapped library box is kept as a field.
- Setters that return `$this` for chaining are methods without a result here; the getters that return fields (`getRequest`, `getResponse`, labels) are represented by the class fields.
- PHP's loose `switch` comparison is modelled for the string cases the source uses only, where `""` and `NULL` compare equal.
- The deriver reads the default catalogue through a parameter instead of the static call, so that a caller can pass any catalogue.
- bcmath is modelled with PHP 7 semantics, where a malformed operand reads as 0; PHP 8 throws a `ValueError` instead.
- The interface files are not modelled separately; their contracts are those of the implementing classes. `RequestInterface::setServiceDefinition(array)` does not match `Request`'s typed parameter, and the model follows `Request`.

## Findings

| source | as written | input that shows it | evidently intended | confidence | as-written member | corrected member |
|---|---|---|---|---|---|---|
| src/PostageServices/ServiceSupport.php:21-23 | `hasService` calls `$this->services()`, a method the class does not define, so every lookup by key ends in a fatal error | `getService('AUS_SERVICE_OPTION_STANDARD')` | test the key against `ServiceDefinitions::services()` and return the service | not executed | ServiceSupport.KnownKeyUnreachableAsWritten | ServiceSupport.EveryKeyFound |
| src/Packer/ShipmentPacking/ShipmentPacker.php:121-125 | each packed box is wrapped with `new PackedBox($box)`, but the constructor is private (src/Packer/ShipmentPacking/PackedBox.php:44) | any packing that yields at least one box | wrap through `PackedBox::create($box)` | not executed | Packing.PrivateConstructorBreaksPacking | Packing.ShipmentPacker.Pack |
| src/Packer/ShipmentPacking/PackableCommercePackageType.php:178-192 | `getMaxWeight` tests `$this->isDomestic`, a property never assigned, so every box gets the international limit | a domestic box: 20000 g instead of 22000 g | test the box's own destination | not executed | PackageTypes.DomesticBoxUnderweighted | PackageTypes.MaxWeight |
| src/Packer/ShipmentPacking/PackableCommercePackageType.php:263-276 | `validatePackageSize` is called on `ServiceSupport`, which neither defines it nor implements the interface declaring it, so the call raises an \Error that the PackageSizeException catch here and the ShipmentPackerException catch of `getPackedBoxes` do not handle | any enabled package type with all its required keys and valid edges | check the box against Australia Post's size limits and answer TRUE, FALSE or a PackageSizeException | not executed | AusPostShipping.UndefinedValidatorAbortsService | PackageTypes.ConstructSucceeds |
| src/PostageAssessment/Request.php:222-236 | `calculateParcelWeight` is called on `ServiceSupport`, which does not define it, so building the dimensions raises an \Error that `calculateRates` does not catch | any enabled service whose order packs into at least one box | the greater of the actual and the cubic weight | not executed | AusPostShipping.UndefinedWeigherAbortsService | PostageRequest.Dimensions |
| src/Plugin/Deriver/ServiceDefinitionDeriver.php:33-48 | the deriver reads `sub_option_code` and requires `height` in `max_dimensions`, but the default catalogue writes `sub_opt_code` and `thickness`, so no derivative gets its extra-cover sub-option or its letter limits | any default entry, e.g. one whose `sub_opt_code` is AUS_SERVICE_OPTION_EXTRA_COVER: its derivative's sub_option_code is NULL | read `sub_opt_code`, and take the letter limits with the thickness as the height | not executed | Deriver.EntryKeysMismatch | Deriver.CorrectedEntryKeepsCatalogue |
| src/Packer/ShipmentPacking/PackableCommercePackageType.php:163-171 | `getInnerVolume` hands the length objects to `bcmul`; their string form is not a number, so the product is 0 | a 100 mm cube: 0 instead of 1000000 | multiply the millimetre numbers | not executed | PackageTypes.InnerVolumeAsWrittenLosesCube | PackageTypes.InnerVolumeWithinEdges |
