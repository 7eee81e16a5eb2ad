# Transport management API — verified model of the `transporte` core

This project models the core of a Django REST back end for a public
transport operator: lines, stops, routes, vehicles, drivers, schedules and
trips as reference data, and a stored-value fare card ledger on top of
them. Passengers hold cards (`Tarjeta`) with a balance. Staff recharge
them (`POST /tarjetas/{id}/recargar/`). Any authenticated user buys a
ticket (`Boleto`) for a trip, which debits the card it names. Incidents
are reported on trips. The access rules come from each viewset's
`get_permissions`. Sign-up is public.

The model is split into the following modules:

| module | file | what it holds |
|---|---|---|
| `Wrappers` | `wrappers.dfy` | `Option`. |
| `Text` | `text.dfy` | Decimal rendering of integers and two-decimal amounts, zero-padded date parts, the parse-back functions that prove those renderings lose nothing, and Python's whitespace stripping. |
| `Models` | `models.dfy` | The records of `models.py`, the choice fields and their stored codes, defaults on creation, unique constraints, the on-delete rule of every foreign key, the related listings, each deletion's effect on related rows, and every `__str__`. |
| `Auth` | `auth.dfy` | The requester and the framework's three stock permission classes. |
| `Permissions` | `permissions.dfy` | The two custom permission classes. |
| `Policy` | `policy.dfy` | The permission each viewset grants for each action. |
| `Serializers` | `serializers.dfy` | Field validation, the ticket serializer's balance check and debit, read-only fields, and how an update merges into the stored row. |
| `Ledger` | `ledger.dfy` | The class `Store`. It holds the cards (a map by id), the trip and stop ids, the tickets and the incidents, and has one method per endpoint that reads or changes them. |
| `Registration` | `registration.dfy` | The class `Directorio` of accounts, and sign-up. |

Money is held as an integer number of cents. A `DecimalField(max_digits=10,
decimal_places=2)` stores exactly the amounts whose absolute value is below
10^10 cents.

Every text field of a serializer strips surrounding whitespace before it
is validated, compared or stored, as the framework's `CharField` does by
default (`trim_whitespace=True`). "Blank" means nothing is left after
stripping. Choice fields (`tipo`, `gravedad`, `estado`) are not stripped.

Every endpoint method checks permission before it looks anything up, so
it reports "denied" before "not found", as the framework does. Each
outcome is a datatype constructor that stands for the HTTP response the
view sends.

In several places the model follows the code where a docstring or comment
says otherwise:

- `GET /viajes/{id}/incidentes/` is staff only. The viewset's docstring calls its reads public, but its `get_permissions` leaves this action out of the open list.
- Neither a recharge nor a purchase looks at `activa`.
- A ticket's `monto` is never checked to be positive.
- `saldo` is an ordinary writable field of the card serializer.
- Deleting a ticket does not refund the card.

## Model

| member | source | states |
|---|---|---|
| Text.NatToStringLength | transporte/models.py:163 | A natural number renders in at most k digits exactly when it is below 10^k. |
| Text.ParseIntToString | transporte/models.py:18-19 | The decimal text of an integer field (a line number) reads back as the same integer. |
| Text.IntToStringInjective | transporte/models.py:18-19 | Two different integers never render alike. |
| Text.ParseMoneyToString | transporte/models.py:197-198 | The two-decimal text of an amount, sign included, reads back as the same number of cents. |
| Text.MoneyToStringInjective | transporte/models.py:197-198 | Two different amounts never render alike. |
| Text.Pad4 | transporte/models.py:149-150 | `%04d` of a year below 10000 is four digits that read back as that year. |
| Text.TrimStartShape | transporte/serializers.py:19-20 | Removing leading whitespace leaves a suffix of the text, preceded only by whitespace and starting with a non-space. |
| Text.TrimEndShape | transporte/serializers.py:19-20 | Removing trailing whitespace leaves a prefix of the text, followed only by whitespace and ending with a non-space. |
| Text.StripShape | transporte/serializers.py:19-20 | A stripped text is a piece of the input with only whitespace around it, and it starts and ends with a non-space. |
| Text.StripBlank | transporte/serializers.py:19-20 | A text strips to nothing exactly when it is all whitespace. |
| Text.StripUnchanged | transporte/serializers.py:19-20 | A text with no whitespace at either end strips to itself. |
| Text.StripBetween | transporte/serializers.py:19-20 | A text with non-space ends, wrapped in any whitespace, strips to exactly that text. |
| Text.StripIdempotent | transporte/serializers.py:19-20 | Stripping twice gives the same text as stripping once. |
| Text.Lower | transporte/serializers.py:31-34 | Lower-casing keeps the length, turns each ASCII capital into the small letter at the same place in the alphabet, and keeps every other character. |
| Text.LowerIdempotent | transporte/serializers.py:31-34 | Lower-cased text has no ASCII capital, so lower-casing twice is lower-casing once. |
| Models.FitsMoneyFieldWholeDigits | transporte/models.py:163 | An amount fits a ten-digit, two-decimal column exactly when its whole part has at most eight digits. |
| Models.FechaIso | transporte/models.py:149-150 | A date prints as `YYYY-MM-DD`: ten characters with dashes at positions 4 and 7, whose three digit groups read back as the year, month and day. |
| Models.FechaDmy | transporte/models.py:242-243 | `%d/%m/%Y` prints ten characters with slashes at positions 2 and 5, whose three digit groups read back as the day, month and year. |
| Models.HoraIso | transporte/models.py:122-123 | A time prints as `HH:MM:SS`: eight characters with colons at positions 2 and 5, whose three digit groups read back as the hour, minute and second. |
| Models.TipoTarjetaDesde | transporte/models.py:155-162 | A card type is accepted exactly when it is one of `normal`, `estudiante` and `jubilado`, and the choice found stores that same code. |
| Models.EstadoViajeDesde | transporte/models.py:128-141 | A trip state is accepted exactly when it is one of the four codes, and the choice found stores that same code. |
| Models.GravedadDesde | transporte/models.py:229-233 | A severity is accepted exactly when it is `baja`, `media` or `alta`, and the choice found stores that same code. |
| Models.TipoMantenimientoDesde | transporte/models.py:203-209 | A maintenance type is accepted exactly when it is `preventivo` or `correctivo`, and the choice found stores that same code. |
| Models.ChoiceCodesRoundTrip | transporte/models.py:155-162 | Every choice of every choice field reads back from its own stored code. |
| Models.NuevaTarjeta | transporte/models.py:161-165 | A new card keeps the number and type it was given, is dated the day of creation, and keeps any balance or active flag that was sent. |
| Models.NuevoViaje | transporte/models.py:135-141 | A new trip keeps its route, vehicle, driver and date, keeps the actual departure and arrival times exactly as sent (absent when not sent), and keeps any state that was sent. |
| Models.NuevoIncidente | transporte/models.py:226-234 | A new incident is dated the moment of creation and keeps its trip, description, severity and any `resuelto` that was sent. |
| Models.CreationDefaults | transporte/models.py:139-165 | Left out on creation, a card's balance is 0 and the card is active, a trip is `programado` with no actual times, and an incident is unresolved. |
| Models.InsertUnique | transporte/models.py:7 | Under a unique constraint an insert is refused exactly when the key is already present. Otherwise the row is appended and keys stay unique. |
| Models.RutaParadaPairRefused | transporte/models.py:64 | A second route-stop link for the same (route, stop) pair is refused. |
| Models.SetNullOnlyOnBoardingStop | transporte/models.py:183-189 | A ticket's boarding stop is the only foreign key that is cleared rather than cascaded, and it is nullable. |
| Models.DeletionsFollowOnDeleteRules | transporte/models.py:179-189 | Side by side with each key's declared rule, the deletion function written for that key does what the rule says. Under CASCADE, deleting a card or a trip removes every ticket or incident that pointed at it. The boarding stop's key is SET_NULL and nullable, and deleting a stop keeps every ticket and leaves none naming that stop. |
| Models.BoletosDeTarjeta | transporte/models.py:180 | A card's `boletos` are exactly the stored tickets that name that card. |
| Models.BoletosDeViaje | transporte/models.py:179 | A trip's `boletos` are exactly the stored tickets of that trip. |
| Models.IncidentesDeViaje | transporte/models.py:226 | A trip's `incidentes` are exactly the stored incidents of that trip. |
| Models.BorrarTarjetaEnBoletos | transporte/models.py:180 | Deleting a card removes exactly its tickets and keeps the others in order. |
| Models.BorrarViajeEnBoletos | transporte/models.py:179 | Deleting a trip removes exactly its tickets and keeps the others in order. |
| Models.BorrarViajeEnIncidentes | transporte/models.py:226 | Deleting a trip removes exactly its incidents and keeps the others in order. |
| Models.AnularParadaEnBoletos | transporte/models.py:183-189 | Deleting a stop keeps every ticket and clears the boarding stop of exactly those that boarded there. |
| Models.AnularParadaKeepsTickets | transporte/models.py:183-189 | After a stop is deleted no ticket refers to it, each ticket differs from before only in its boarding stop, and the order is kept. |
| Models.GastadoAppend | transporte/serializers.py:181-190 | Recording a ticket adds its amount to what its own card has paid and changes no other card's total. |
| Models.LineaStrDetermines | transporte/models.py:18-19 | Two lines print alike only if they have the same number and name. |
| Models.BoletoStrDetermines | transporte/models.py:197-198 | Two tickets print alike only if they have the same id and amount. |
| Models.ViajeStrDeterminesId | transporte/models.py:149-150 | Two trips print alike only if they have the same id. |
| Models.IncidenteStrDeterminesId | transporte/models.py:242-243 | Two incidents print alike only if they have the same id. |
| Models.NestedStrPrefixes | transporte/models.py:67-68 | A route-stop and a schedule print their route's text first. |
| Models.VehiculoStrPrefixes | transporte/models.py:220-221 | A maintenance record prints its vehicle's text first. A vehicle with neither make nor model prints `None None` after its plate. |
| Models.ChoferStr | transporte/models.py:105-106 | A driver prints as the surname, then a comma and a space, then the first name, with nothing else. |
| Models.CodigoUltimaLetra | transporte/models.py:155-159 | The three card-type codes end in different letters. |
| Models.TarjetaStrPartes | transporte/models.py:173-174 | A card's text holds its number right after the label and ends with the last letter of its type code. |
| Models.TarjetaStrDetermines | transporte/models.py:173-174 | Two cards print alike only if they have the same number and type. |
| Models.RutaStrDeterminesLinea | transporte/models.py:50-51 | Two routes of the same name print alike only if their lines have the same number. |
| Models.LineaStrExample | transporte/tests.py:10-21 | Line 101 "Centro - Norte" prints as `Línea 101 - Centro - Norte`. |
| Models.ChoferStrExample | transporte/tests.py:24-63 | The stop "Terminal Central" prints as its name, and driver Juan Pérez as `Pérez, Juan`. |
| Models.BoletoStrExample | transporte/models.py:197-198 | Ticket 7 for 5000 cents prints as `Boleto 7 - $50.00`, with two decimals. |
| Auth.Grants | transporte/views.py:288-291 | `AllowAny` grants everyone. `IsAuthenticated` grants exactly authenticated users. `IsAdminUser` grants exactly staff. |
| Auth.AnonymousGrantedOnlyAllowAny | transporte/views.py:288-291 | The anonymous user passes only `AllowAny`. |
| Permissions.IsAdminOrReadOnly | transporte/permissions.py:11-20 | The request is allowed exactly when its method is safe, or a user is present, authenticated and staff. |
| Permissions.IsOwnerOrAdmin | transporte/permissions.py:29-42 | The request is allowed exactly when its method is safe, or the user is staff, or the object has an owner that is this user. |
| Permissions.AdminOrReadOnlySafeMethods | transporte/permissions.py:11-14 | GET, HEAD and OPTIONS are always allowed. |
| Permissions.AdminOrReadOnlyNeedsAuthentication | transporte/permissions.py:16-18 | A write with no user, or an unauthenticated one, is refused. |
| Permissions.AdminOrReadOnlyWriteIffStaff | transporte/permissions.py:16-20 | For an authenticated user, a write is allowed exactly when the user is staff. |
| Permissions.OwnerOrAdminSafeMethods | transporte/permissions.py:29-32 | Safe methods are allowed on any object. |
| Permissions.OwnerOrAdminStaff | transporte/permissions.py:34-36 | Staff may do anything to any object. |
| Permissions.OwnerOrAdminWriteNeedsOwnership | transporte/permissions.py:38-42 | For a non-staff user, a write is allowed exactly when the object has a non-null owner that is this user. |
| Permissions.OwnerOrAdminOnApplicationRecords | transporte/permissions.py:38-42 | On an object without a `user` attribute (every record of this application), only staff may write. |
| Permissions.StaffIsMonotone | transporte/permissions.py:11-42 | Making a user staff never turns an allowed request into a refused one. |
| Policy.PermissionFor | transporte/views.py:325-330 | An action is open to anyone exactly when it is one of its viewset's open actions. It needs only authentication exactly when it is a ticket write or an incident create. Everything else needs staff. |
| Policy.Allowed | transporte/views.py:325-330 | A request is let through exactly as its permission class says: open actions always, ticket writes and incident reports exactly for authenticated users, everything else exactly for staff. |
| Policy.ReferenceDataPolicy | transporte/views.py:58-62 | For lines, stops, routes, route-stops, schedules and maintenance, a request is allowed exactly when it is a list/retrieve or comes from staff. |
| Policy.ListingPolicy | transporte/views.py:197-200 | The maintenance, trips and tickets sub-listings are open. A trip's incidents and a card recharge are staff only. Writes on vehicles, drivers, trips and cards are staff only. |
| Policy.BoletoPolicy | transporte/views.py:288-291 | For tickets, a request is allowed exactly when it is a read or comes from an authenticated user. |
| Policy.IncidentePolicy | transporte/views.py:325-330 | For incidents, reads are open, create needs authentication, and update and delete need staff. |
| Policy.UserPolicy | transporte/views.py:21-34 | For accounts, every action except `register` needs staff. |
| Policy.AnonymousPolicy | transporte/views.py:231-234 | The anonymous user may do exactly the open actions. |
| Policy.PolicyStaffMonotone | transporte/views.py:306-309 | Making a user staff never turns an allowed action into a refused one. |
| Policy.StaffMayDoEverything | transporte/views.py:128-131 | An authenticated staff user is allowed every action of every viewset. |
| Serializers.ErroresBoleto | transporte/models.py:179-189 | A ticket request fails a field exactly when that field is required and missing, names a trip, card or stop that does not exist, or holds an amount that does not fit the column. |
| Serializers.ValidarBoleto | transporte/serializers.py:169-179 | The balance check rejects for insufficient balance exactly when a card and an amount are given and the balance is below the amount. It fails with a type error exactly when a card is given without an amount. Otherwise the ticket passes. |
| Serializers.ValidarBoletoAccepts | transporte/serializers.py:169-179 | A ticket without a card always passes, and so does an amount equal to the balance. |
| Serializers.ValidarBoletoIgnoresActiva | transporte/serializers.py:169-179 | For every card and amount, whether the card is active does not change the outcome of the balance check. |
| Serializers.Debitar | transporte/serializers.py:186-188 | A debit lowers the balance by exactly the amount and changes no other field. |
| Serializers.ValidatedDebitNonNegative | transporte/serializers.py:169-190 | A balance that was not negative and passed the check is still not negative after the debit. |
| Serializers.NegativeAmountRaisesBalance | transporte/serializers.py:169-190 | A negative ticket amount passes the check and raises the card's balance. |
| Serializers.NuevoBoleto | transporte/serializers.py:181-190 | A created ticket carries the next id, the moment of purchase, and the trip, card, amount and boarding stop that were sent. |
| Serializers.AplicarBoletoDatos | transporte/serializers.py:161-167 | A ticket update keeps `id` and `fecha_compra`, sets each field that was sent and keeps each one that was not. |
| Serializers.ErroresTarjeta | transporte/models.py:161-165 | A card request fails `numero` exactly when it is missing, or its stripped text is blank, longer than 50 characters, holds a null character or is held by another card. It fails `tipo` exactly when it is missing or not a choice, and `saldo` exactly when it does not fit the column. |
| Serializers.NumeroConNuloRechazado | transporte/models.py:161 | The number `12\0` fails on `numero` whatever cards are stored. |
| Serializers.AplicarTarjetaDatos | transporte/serializers.py:146-149 | A card update keeps the read-only `id` and `fecha_emision`, sets each field that was sent, the balance included since `saldo` is not read-only, stores the number stripped, and keeps each field that was not sent. |
| Serializers.ErroresIncidente | transporte/models.py:226-234 | An incident request fails a field exactly when its trip is given but unknown, its description is missing (on a full request), strips to nothing or holds a null character, or its severity is missing or not a choice. |
| Serializers.AplicarIncidenteDatos | transporte/serializers.py:207-210 | An incident update keeps `id` and `fecha`, sets each field that was sent with the description stripped, and keeps each one that was not. |
| Serializers.NombreCompleto | transporte/serializers.py:105-106 | A driver's full name is the surname, then a comma and a space, then the first name, with nothing else. It is the same text as the driver's `__str__`. |
| Ledger.Acreditar | transporte/views.py:259-260 | A recharge raises the balance by exactly the amount and changes no other field. |
| Ledger.RecargaYCobroSeCancelan | transporte/views.py:259-260 | A recharge and a debit of the same amount cancel out, in either order. |
| Ledger.CobrarBoleto | transporte/serializers.py:186-188 | A purchase changes only the ticket's card, lowering its balance by the ticket's amount. It keeps the set of cards. |
| Ledger.CobroConservaSaldoMasGastado | transporte/serializers.py:181-190 | For every card, balance plus what it has paid for its tickets is the same before and after a ticket is recorded. |
| Ledger.CobroValidadoNoNegativo | transporte/serializers.py:169-190 | If no balance was negative and the ticket passed the balance check, no balance is negative after the debit. |
| Ledger.RecargaYBoletoRestauran | transporte/views.py:236-264 | A recharge followed by a ticket of the same amount on the same card leaves every card as it was. |
| Ledger.AgregarTarjetaPreserva | transporte/models.py:161 | Adding a card under the next id, with a number no stored card holds, keeps the store consistent: card ids below the counter, numbers unique, every ticket and incident linked. |
| Ledger.ReemplazarTarjetaPreserva | transporte/models.py:161 | Replacing a card by one with the same id and a number no other card holds keeps the store consistent. |
| Ledger.CobroPreservaTarjetas | transporte/serializers.py:186-188 | A debit keeps card ids and numbers, so card numbers stay unique. |
| Ledger.AgregarBoletoPreserva | transporte/models.py:179-189 | Appending a ticket whose trip, card and stop exist, under an id above every stored one, keeps the tickets linked and ordered by id. |
| Ledger.ReemplazarBoletoPreserva | transporte/models.py:179-189 | Replacing a ticket by a linked one with the same id keeps the tickets linked and ordered by id. |
| Ledger.AgregarIncidentePreserva | transporte/models.py:226 | Appending an incident under the next id, whose trip exists if it has one, keeps the incidents linked and ordered by id. |
| Ledger.ReemplazarIncidentePreserva | transporte/models.py:226 | Replacing an incident by one with the same id and an existing trip keeps the incidents linked and ordered by id. |
| Ledger.BorrarViajePreserva | transporte/models.py:179-226 | Removing a trip with its tickets and incidents keeps the store consistent without that trip. |
| Ledger.AnularParadaPreserva | transporte/models.py:183-189 | Clearing a stop from the tickets keeps them linked without that stop. |
| Ledger.Store.Recargar | transporte/views.py:236-264 | Staff only, checked before the lookup. An unknown card gives not found. A missing or falsy amount gives "monto required". Text that is not a number gives an internal error. A non-positive amount gives "positive number". Otherwise the card's balance rises by the amount, nothing else changes, and the updated card is returned. |
| Ledger.ResultadoCompra | transporte/serializers.py:169-190 | The answer to a ticket purchase. It is a denial exactly when the user is anonymous. It is the field errors exactly when there are any. It is insufficient balance exactly when a card and an amount are given and the card holds less than the amount. A created ticket is the one built from the request, and its trip, card and stop exist. |
| Ledger.Store.ComprarBoleto | transporte/serializers.py:169-190 | Answers as `Ledger.ResultadoCompra` on the state before the call. A purchase appends that ticket and debits its card by the amount, and nothing changes otherwise. Every card keeps its balance plus what it has paid, and no balance becomes negative. |
| Ledger.Store.ActualizarBoleto | transporte/serializers.py:169-179 | Needs authentication. The check looks only at the card and amount sent. A PATCH with a card but no amount fails with an internal error. Otherwise the ticket is replaced by its merged update. No balance ever changes. |
| Ledger.Store.EliminarBoleto | transporte/views.py:288-291 | Needs authentication. Exactly the ticket with that id is removed, and no card is refunded. |
| Ledger.ResultadoAltaTarjeta | transporte/views.py:231-234 | The answer to a card creation. It is a denial exactly when the user is not staff. It is the field errors exactly when there are any. Otherwise it is the new card under the given id, with the stripped number, the type sent and the defaults, and no stored card holds that number. |
| Ledger.Store.InsertarTarjeta | transporte/models.py:161 | Saving a new card under the next id, with a number no stored card holds, adds exactly that card, advances the id counter and keeps the store consistent. |
| Ledger.Store.CrearTarjeta | transporte/views.py:231-234 | Answers as `Ledger.ResultadoAltaTarjeta` on the state before the call. A saved card is added under the fresh id, the id counter advances, and nothing changes otherwise. Card numbers stay unique. |
| Ledger.Store.ActualizarTarjeta | transporte/serializers.py:142-149 | Staff only. An unknown card gives not found. Field errors exactly when there are any. Otherwise the card is replaced by its merged update, balance included and number stripped, and numbers stay unique. |
| Ledger.Store.EliminarTarjeta | transporte/models.py:180 | Staff only. The card and exactly its tickets are removed. |
| Ledger.Store.EliminarViaje | transporte/models.py:179 | Staff only. The trip and exactly its tickets and incidents are removed. The cards are untouched. |
| Ledger.Store.EliminarParada | transporte/models.py:183-189 | Staff only. The stop is removed. Every ticket is kept, and exactly those that boarded there lose their boarding stop. |
| Ledger.Store.CrearIncidente | transporte/views.py:325-330 | Needs authentication. Field errors exactly when there are any. Otherwise one incident is appended, with its description stripped, unresolved unless `resuelto` was sent. |
| Ledger.Store.ActualizarIncidente | transporte/views.py:325-330 | Staff only. An unknown incident gives not found. Field errors exactly when there are any. Otherwise the incident is replaced by its merged update, with its description stripped. |
| Ledger.Store.BoletosDeLaTarjeta | transporte/views.py:266-272 | Open to anyone. An unknown card gives not found. Otherwise the result is exactly the tickets paid with that card. |
| Ledger.Store.BoletosDelViaje | transporte/views.py:202-208 | Open to anyone. An unknown trip gives not found. Otherwise the result is exactly the tickets of that trip. |
| Ledger.Store.IncidentesDelViaje | transporte/views.py:210-216 | Staff only. An unknown trip gives not found. Otherwise the result is exactly the incidents of that trip. |
| Registration.ErroresRegistro | transporte/serializers.py:17-24 | A sign-up fails a field exactly when: the username is missing, or its stripped text is blank, longer than 150 characters, holds a null character or is taken; either password is missing, strips to nothing or holds a null character; or an optional text is too long or holds a null character once stripped. |
| Registration.UltimaArroba | transporte/serializers.py:31-34 | The position found is an `@` with no `@` after it, and there is none exactly when the text has no `@`. |
| Registration.NormalizarEmail | transporte/serializers.py:31-34 | The email `create_user` stores has the same length. An address without `@` is kept. Otherwise the part up to the last `@` is kept and the domain after it is lower-cased. |
| Registration.NormalizarEmailIdempotent | transporte/serializers.py:31-34 | Normalising an address twice gives the same address as normalising it once. |
| Registration.NormalizarEmailEjemplo | transporte/serializers.py:31-34 | `A@B` is stored as `A@b`: the domain is lower-cased and the local part is not. |
| Registration.CrearUsuario | transporte/serializers.py:31-34 | A new account holds the stripped username and names, and the stripped email with its domain lower-cased. It is active, neither staff nor superuser, and its credential accepts exactly the stripped password. |
| Registration.Directorio.Registrar | transporte/views.py:33-43 | Open to anyone. Field errors exactly when there are any. Then a password mismatch exactly when the stripped passwords differ. Otherwise the account built by `Registration.CrearUsuario` is appended, and usernames stay unique. |
| Registration.RegistroRecortaContrasenas | transporte/serializers.py:19-28 | The password `secret ` with confirmation `secret` passes validation. The account's credential accepts `secret` and not `secret `. |

## Left out

- `Ledger.Store.Recargar`: the amount arrives already classified as missing or falsy, unparseable, or a number of cents; parsing decimal text is not modelled.
- An amount with more than two decimals, `Infinity`, and the database rejecting a balance that outgrows its column on save are not modelled. Balances are unbounded integers.
- Latitude and longitude of a stop, and microseconds of a timestamp, are not modelled; none of them takes part in any rule here.
- `Models.FechaDmy`: pads the year to four digits. For a year below 1000, what `strftime('%Y')` prints depends on the platform's C library, and that is not modelled. `Models.FechaIso` pads as `str(date)` does.
- `Registration.ErroresRegistro`: the username character rules and email syntax are not modelled; only blankness, length, null characters and uniqueness are.
- `Registration.CrearUsuario`: `create_user` also NFKC-normalises the username, and that is not modelled; the username is stored as sent, stripped. The email's domain is lower-cased for ASCII letters only; other letters are kept as they are, where Python's `str.lower` would lower-case them too.
- `Registration.Directorio.Registrar`: because NFKC is not modelled, a username that differs from a taken one only before normalisation (a ligature such as `ﬁ` against `fi`) registers here. Django would fail that insert with an integrity error (HTTP 500).
- `Serializers.ErroresBoleto`: an explicit JSON `null` for `viaje` is read as not sent. The framework answers "This field may not be null.", which differs from the model on a partial update.
- `Serializers.ErroresTarjeta` and `Serializers.ErroresIncidente`: an explicit `null` for `numero`, `tipo`, `saldo`, `activa`, `descripcion`, `gravedad` or `resuelto` is read as not sent, where the framework answers "This field may not be null."
- `Registration.ErroresRegistro`: an explicit `null` for `email`, `first_name` or `last_name` is read as not sent, where the framework answers "This field may not be null."
- Password hashing is abstracted: the stored credential accepts exactly the password it was set from.
- Transactions and concurrent requests are not modelled. Each method runs alone. A purchase does the card's debit and the ticket insert in one step. A failure between the card save (`transporte/serializers.py:188`) and the insert (`:190`), which would leave the card debited with no ticket, is not modelled.
- Reference data is not modelled in the store: creating or updating lines, stops, routes, route-stops, vehicles, drivers, schedules, trips and maintenance records, and the account CRUD. Their access rules are in `Policy`, and the store holds trips and stops by id only.
- Querysets, filtering, search, ordering, pagination, the `OPTIONS`/metadata responses, URL routing, the admin site and app configuration are not modelled.
- The `total_rutas`, `total_boletos` and `total_viajes` counts of the serializers are not modelled.
- `Permissions.IsOwnerOrAdmin` takes the requester as always present, as the code dereferences it. Neither custom class is attached to a viewset.
