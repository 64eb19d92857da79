# Greenhouse harvest coordination, modelled in Dafny

The system simulates a tomato greenhouse (an orchard grid in the Python
simulation, a Unity scene in the C# version) worked by autonomous agents:

- **Python simulation (`simPy/`)**
  - A *capataz* (foreman) keeps the status of every harvester and applies a ladder of rules to it. It logs PARATE / CONTINUA / ABANDONA orders with a cause and a priority, and reacts to contamination reports.
  - A *coordinator* (`manager.py`) does several things:
    - it splits the grid into blocks of cells, one block per harvester;
    - it controls each harvester through a pause event and an abort flag;
    - it classifies every reading (worm, harvest readiness);
    - it queues harvest instructions and notifies the UI.
  - *Physical harvesters* (`fisico.py`) walk their cells. At each checkpoint they obey the abort flag, send a reading, harvest by their own rule and unload when full.
  - The *UI agent* (`ui.py`) keeps the cell map, the metrics and a bounded activity log.
  - A maintenance script (`limpiar_emojis.py`) replaces emoji and mis-decoded accents in the sources.
- **Unity version**
  - *Drones* (`AgenteFisico.cs`) fly a route of plants, analyse each one, treat plagues, harvest ripe plants and report to a *mission manager* (`AgenteManager.cs`).
  - The mission manager assigns routes, by tag or by proximity. It keeps one report per drone and global totals, and forwards what it hears to an on-screen monitor (`AgenteUI.cs`, class `UIController`).
  - Plants (`PlantaData.cs`) carry a plague flag painted in one of two colours.
  - A dashboard (`DashboardManager.cs`) paints risk levels and manages the floating alerts.

One Dafny module models each source file:

| module | file |
|---|---|
| `Capataz` | `capataz.py` |
| `Coordinador` | `manager.py` |
| `Fisico` | `fisico.py` |
| `Ui` | `ui.py` |
| `LimpiarEmojis` | `limpiar_emojis.py` |
| `Dron` | `AgenteFisico.cs` |
| `Mision` | `AgenteManager.cs` |
| `ControlUi` | `AgenteUI.cs` |
| `Planta` | `PlantaData.cs` |
| `Tablero` | `DashboardManager.cs` |

A small shared module, `Util`, holds the helpers the others use:
- cells and Manhattan distance;
- `Ultimos`, which models a bounded deque or queue;
- C#'s truncating `%`;
- substring search;
- decimal rendering.

How the source's stateful parts are modelled:

- **Classes.** Each object whose fields the source updates becomes a Dafny `class` with those fields. Its methods state the whole new state, usually by a pure function of the old state. Lemmas about those functions carry the properties.
- **Threads and callbacks.**
  - The coordinator's lambda `control_abortar` and the `Event` become values the caller passes in. So do the readings, the clock and all random draws.
  - The harvester's calls into the coordinator are returned as a list of reports.
  - The drones' calls into the mission manager, and the manager's calls into the UI controller, are returned as lists of notifications.
- **Errors.** Exceptions the code raises become explicit results:
  - a `KeyError` when an order goes to an unknown agent;
  - the UI callback called with three arguments where it takes two;
  - the `AttributeError` of `ui.py` reading a field that `EstadoCelda` does not have;
  - the failed list access of a negative plant index.

  These are modelled as they are written, not repaired.

## Model

| member | source | states |
|---|---|---|
| Util.Manhattan | simPy/capataz.py:307-309 | The distance is zero exactly when the two cells coincide. |
| Util.Ultimos | simPy/ui.py:74 | A bounded deque keeps `min(k, len(s))` elements, which are the last ones of `s`. |
| Util.UltimosAnexo | simPy/ui.py:86 | Trimming after every append gives the same deque as trimming once at the end. |
| Util.ConcatenarAnexo | simPy/manager.py:149-152 | Concatenating blocks distributes over appending one more block. |
| Util.RestoTruncado | Invernadero2/Assets/Scripts/Agentes/AgenteFisico.cs:72 | C#'s `%`: the remainder has the sign of the dividend, and its magnitude is `abs(a) mod b`. |
| Util.Int32 | Invernadero2/Assets/Scripts/DashboardManager.cs:227 | C#'s unchecked `int` result: always in [-2^31, 2^31), equal to the exact value when that fits, and congruent to it modulo 2^32. |
| Capataz.Eficiencia | simPy/capataz.py:184-185 | The rate is 0 when no time has elapsed; otherwise rate × seconds = harvests × 60, never negative. |
| Capataz.CargaLlena | simPy/capataz.py:274-277 | With capacity 50, the load ratio reaches 0.9 exactly from 45 fruits on. |
| Capataz.Regla | simPy/capataz.py:225-297 | One clause per rung, each guarded by "no earlier rung fires", gives the exact decision. The rungs, in order: <br>1. battery ≤ 5 gives ABANDONA(Emergencia, 5); <br>2. battery ≤ 15 while harvesting gives PARATE(BateriaBaja, 4); <br>3. battery > 50 while stopped, after a PARATE, gives CONTINUA(BateriaRecuperada, 3); <br>4. 45 or more fruits while harvesting gives PARATE(Sobrecarga, 3); <br>5. more than 20 cells at efficiency below 2 gives ABANDONA(EficienciaBaja, 2). <br>No order iff no rung fires. Priorities 5 and 4, and the CONTINUA kind, are also each stated as an if-and-only-if. |
| Capataz.SoloAdvertencia | simPy/capataz.py:287-297 | Efficiency in [2, 5) over more than 20 cells only warns: no order is emitted. |
| Capataz.DirigidasA | simPy/capataz.py:385 | The filtered list holds exactly the logged orders addressed to the agent. |
| Capataz.UltimaOrden | simPy/capataz.py:383-386 | None iff no logged order targets the agent; otherwise a logged order addressed to it. |
| Capataz.UltimaTrasEmitir | simPy/capataz.py:365-386 | After an append, the new order is its addressee's last order; every other agent's last order is unchanged. |
| Capataz.Cuenta | simPy/capataz.py:368-373 | Counting one kind of order never exceeds the log length. |
| Capataz.CuentaAnexo | simPy/capataz.py:365-373 | Counts over a concatenated log add up. |
| Capataz.CuentasSuman | simPy/capataz.py:366-373 | The three kinds of order partition the log. |
| Capataz.ATodos | simPy/capataz.py:329-335 | A broadcast holds one order per tracked agent, in key order, all with the same kind, cause and priority. |
| Capataz.CuentaATodos | simPy/capataz.py:329-335 | A broadcast adds one order per agent of its own kind and none of the others. |
| Capataz.Destinatario | simPy/capataz.py:299-318 | Holds iff some order of the list is addressed to the agent. |
| Capataz.Cercanas | simPy/capataz.py:299-318 | Every order is a PARATE(4) to a tracked agent, citing its own Manhattan distance to the cell. An agent receives an order iff it is tracked, harvesting and within Manhattan distance 2. |
| Capataz.DirigidasAAnexo | simPy/capataz.py:383-386 | The orders addressed to an agent distribute over concatenation of logs. |
| Capataz.CercanasUnaPorAgente | simPy/capataz.py:299-318 | With distinct agents (dictionary keys), each nearby harvester receives exactly one PARATE, and no untracked id receives any. |
| Capataz.CercanasEnOrden | simPy/capataz.py:299-318 | The orders follow the dictionary order: those for the first `i` agents are a prefix of the whole list. |
| Capataz.RespuestaContaminacion | simPy/capataz.py:205-219 | Level ≥ 9: one ABANDONA(5) per tracked agent, in key order, addressed to that agent and citing the critical contamination at the cell. Level in [7, 9): exactly `Cercanas`. So every order is a PARATE(4) to a tracked agent citing its distance, an agent is addressed iff it is tracked and nearby, and with distinct agents each nearby one gets exactly one order. Level below 7: nothing. |
| Capataz.AgenteCapataz.constructor | simPy/capataz.py:105-147 | Empty status table and log, zero counters, active. |
| Capataz.AgenteCapataz.Totales | simPy/capataz.py:364-373 | The decision total equals the sum of the three counters and the length of the log. |
| Capataz.AgenteCapataz.EmitirOrden | simPy/capataz.py:341-381 | Appends exactly the order and bumps the total and its kind's counter; statuses are untouched. |
| Capataz.AgenteCapataz.EvaluarYEmitirOrden | simPy/capataz.py:225-297 | Logs the order `Regla` gives for the stored status (nothing for an unknown agent), using the agent's last order so far. |
| Capataz.AgenteCapataz.ActualizarEstadoAgente | simPy/capataz.py:161-203 | Stores the status, with its efficiency, at the id. A new id joins the iteration order. Then the rule's order is logged. |
| Capataz.AgenteCapataz.Difundir | simPy/capataz.py:320-335 | Appends the broadcast to every tracked agent, in insertion order. |
| Capataz.AgenteCapataz.EvaluarAgentesCercanos | simPy/capataz.py:299-318 | Appends exactly `Cercanas` of the stored statuses. |
| Capataz.AgenteCapataz.ReportarContaminacion | simPy/capataz.py:205-219 | Appends exactly `RespuestaContaminacion` for the level. |
| Capataz.AgenteCapataz.OrdenarParate | simPy/capataz.py:392-394 | Appends one manual PARATE of priority 5, whose cause defaults to the manual-order text. |
| Capataz.AgenteCapataz.OrdenarContinua | simPy/capataz.py:396-398 | Appends one manual CONTINUA of priority 5, whose cause defaults to the manual-order text. |
| Capataz.AgenteCapataz.OrdenarAbandona | simPy/capataz.py:400-402 | Appends one manual ABANDONA of priority 5, whose cause defaults to the manual-order text. |
| Capataz.AgenteCapataz.OrdenarFinTurno | simPy/capataz.py:404-414 | Appends one end-of-shift ABANDONA(5) per tracked agent; the ABANDONA counter grows by their number and the other counters are unchanged. |
| Capataz.DemoActualizaciones | simPy/capataz.py:507-542 | In the demo, agent 1 (battery 12) gets PARATE for low battery, and agent 3 (48 fruits) gets PARATE for overload. |
| Capataz.DemoAgente2SinOrden | simPy/capataz.py:520-529 | Demo agent 2 gets no order iff its efficiency is at least 2 a minute. |
| Capataz.DemoContaminacion | simPy/capataz.py:546-548 | The level-8.5 report at (3, 5) stops agents 1 and 2 and spares agent 3. |
| Coordinador.Celdas | simPy/manager.py:147 | The row-major grid: all `filas × columnas` cells, each once, sorted rows first. |
| Coordinador.Fila | simPy/manager.py:147 | Row `f` lists its columns in order. |
| Coordinador.Rebanada | simPy/manager.py:152 | Python slicing with clamped bounds: its length and its elements. |
| Coordinador.InicioEsProducto | simPy/manager.py:150 | The start of block `i` is `i × chunk`. |
| Coordinador.InicioMonotono | simPy/manager.py:150 | Block starts never decrease. |
| Coordinador.Bloques | simPy/manager.py:149-152 | The first `k` blocks, in agent order. |
| Coordinador.PrefijoBloques | simPy/manager.py:149-152 | The first `i` blocks concatenate to the cells before block `i`. |
| Coordinador.ConcatenacionCompleta | simPy/manager.py:149-152 | The `n` blocks, in agent order, concatenate back to every cell. |
| Coordinador.TamanoBloques | simPy/manager.py:148-151 | Every block but the last holds `chunk` cells; the last holds the rest. |
| Coordinador.Particion | simPy/manager.py:145-152 | With `chunk = len // n`, the blocks partition the cells in order, with those sizes. |
| Coordinador.ListoCosecha | simPy/manager.py:209-211 | Ready iff fruit is present, maturation is above 7 and there is no worm. |
| Coordinador.Clasificar | simPy/manager.py:192-228 | Worm iff pests > 8, and then risk CRITICO with threat "GUSANO"; otherwise BAJO with "Ninguna". Readiness follows the rule above; coordinates and fruit are copied. |
| Coordinador.Instrucciones | simPy/manager.py:213-216 | Exactly one instruction for the cell when it is ready, none otherwise. |
| Coordinador.Aplicar | simPy/manager.py:167-184 | The order text is set. The event is set iff the order is not PARAR. Abort is set by ABANDONAR, cleared by CONTINUAR, left alone by PARAR. |
| Coordinador.AplicarIdempotente | simPy/manager.py:167-184 | Repeating an order changes nothing more. |
| Coordinador.AbortoReversible | simPy/manager.py:176-184 | ABANDONAR sets abort, and a later CONTINUAR restores the initial control record. |
| Coordinador.Ids | simPy/manager.py:124 | Ids `1 … n`, in order. |
| Coordinador.ValoresEn | simPy/manager.py:267 | The values of a map, in the given key order. |
| Coordinador.Manager.constructor | simPy/manager.py:91-113 | Empty maps, queue and agents; zero counters; no callback. |
| Coordinador.Manager.RegistrarAgenteUi | simPy/manager.py:117-118 | A callback becomes registered. |
| Coordinador.Manager.CrearAgentesFisicos | simPy/manager.py:120-143 | Appends harvesters `1 … n`, each with the initial control record (event set, no abort, CONTINUAR); other records are kept. |
| Coordinador.Manager.Contratar | simPy/manager.py:126-143 | One harvester gets its initial record and joins the agent list. |
| Coordinador.Manager.DistribuirTrabajo | simPy/manager.py:145-152 | Agent `i` gets `Bloque i` of the row-major cells. Zero harvesters fail with the division error and change nothing. |
| Coordinador.Manager.EmitirOrden | simPy/manager.py:167-184 | A known id has `Aplicar` applied to its record; an unknown id gives `KeyError` and changes nothing. |
| Coordinador.Manager.Metricas | simPy/manager.py:258-265 | The figures sent to the UI: distinct cells explored, grid size, fruit total, worm count, agent count. |
| Coordinador.Manager.NotificarUi | simPy/manager.py:239-267 | Without a callback, nothing happens; with one, the three-argument call to a two-argument callback fails. |
| Coordinador.Manager.Valores | simPy/manager.py:267 | The cell states in the map's insertion order. |
| Coordinador.Manager.GuardarLectura | simPy/manager.py:208-230 | Queues the reading's instructions, stores `Clasificar` at its cell and adds the cell to the explored set. |
| Coordinador.IndiceLectura | simPy/manager.py:229-230 | Storing a reading keeps the cell map, its keys in insertion order and the explored set in agreement. The explored set grows by exactly one for a new cell. |
| Coordinador.Manager.RecibirDatos | simPy/manager.py:188-233 | A worm bumps the counter and sends ABANDONAR to the sender; a sender without a record raises `KeyError` before anything is stored. Otherwise the reading is stored and the UI is notified. Storing means: the instruction is queued, the state is set at the cell, a new cell is appended to the key order, and the cell joins the explored set. |
| Coordinador.Manager.ReportarCosecha | simPy/manager.py:235-237 | Adds the amount to the total, then notifies the UI. |
| Coordinador.Manager.DetenerTodo | simPy/manager.py:269-271 | Every control record becomes (event set, abort, ABANDONAR); the key set is unchanged. |
| Fisico.Abortado | simPy/fisico.py:67-71 | The abort branch sends the harvester to base (0, 0), inactive, keeping its battery and load. |
| Fisico.Mover | simPy/fisico.py:75-82 | Moves to the cell, spending 0.1 × Manhattan distance of battery. |
| Fisico.Descargar | simPy/fisico.py:121-124 | A load of 20 or more is emptied; a smaller load is kept. |
| Fisico.DatosDe | simPy/fisico.py:95-103 | The reading holds the cell, the sender and the sensed values. |
| Fisico.PegarAnexo | simPy/fisico.py:36-54 | Prefixing reports twice equals prefixing their concatenation. |
| Fisico.Recorrido | simPy/fisico.py:36-54 | A run that ends in a callback's exception has sent at least one report: the one whose callback raised. Termination comes from the walk over the cells. |
| Fisico.RecorridoDesde | simPy/fisico.py:36-54 | The run from cell `i` is one loop pass followed by the run from `i + 1`. |
| Fisico.CeldasReportadasAnexo | simPy/fisico.py:106 | The cells reported on distribute over concatenation. |
| Fisico.ReportesDeIteracion | simPy/fisico.py:84-110 | One loop pass reports on its own cell or on none. |
| Fisico.PrefijoVisitado | simPy/fisico.py:36-54 | The cells reported on are a prefix of the assigned cells, in order. |
| Fisico.Inactivo | simPy/fisico.py:37 | An inactive harvester does nothing and breaks at once. |
| Fisico.TrasAbortoNada | simPy/fisico.py:37-47 | After a pass that aborts, the run stops with that pass's reports. |
| Fisico.AbortoAlSalir | simPy/fisico.py:40-41 | An abort at the first checkpoint sends the harvester home, with nothing reported. |
| Fisico.CargaAcotada | simPy/fisico.py:52-54 | A load starting under 20 is still under 20 when the run returns normally (not by a callback's exception). |
| Fisico.BateriaNoSube | simPy/fisico.py:82 | The battery never rises during a run. |
| Fisico.CosechaImplicaListo | simPy/fisico.py:106-110 | Every harvest report follows a reading of the same cell that satisfies the harvester's own rule. |
| Fisico.UmbralDistinto | simPy/fisico.py:109 | At pests exactly 8.0 (with fruit and maturation 9) the coordinator sees no worm and marks the cell ready, while the harvester declines to harvest. Its `< 8.0` and the coordinator's `> 8.0` leave a gap at that one value. |
| Fisico.AgenteFisico.constructor | simPy/fisico.py:13-27 | At base, battery 100, no load, active, no cells. |
| Fisico.AgenteFisico.AsignarCeldas | simPy/fisico.py:29-30 | The assigned cells are replaced. |
| Fisico.AgenteFisico.VerificarOrdenesCapataz | simPy/fisico.py:58-73 | Returns false iff the abort flag is set, and then the harvester is at base and inactive; otherwise nothing changes. |
| Fisico.AgenteFisico.MoverA | simPy/fisico.py:75-82 | The new position and the battery cost. |
| Fisico.AgenteFisico.Cosechar | simPy/fisico.py:112-119 | An abort aborts with no report; otherwise the load grows and the amount is reported (the callback may raise). |
| Fisico.AgenteFisico.ProcesarCelda | simPy/fisico.py:84-110 | Sends the reading, then harvests iff pests < 8, fruit present and maturation > 7. |
| Fisico.AgenteFisico.IrABaseDescargar | simPy/fisico.py:121-124 | The load is emptied. |
| Fisico.AgenteFisico.Iterar | simPy/fisico.py:36-54 | One loop pass equals `Iteracion` on the old state. |
| Fisico.AgenteFisico.IniciarTrabajo | simPy/fisico.py:32-56 | The final state and the reports equal `Recorrido` over the assigned cells. |
| Ui.ColorCelda | simPy/ui.py:298-318 | Unexplored colour off the map; the harvest colour for a ready cell; otherwise the colour of its risk level. |
| Ui.CosechaSobreRiesgo | simPy/ui.py:305-307 | A ready cell is drawn in the harvest colour, whatever its risk. |
| Ui.ColoresDelCoordinador | simPy/ui.py:298-318 | With the coordinator's two risk levels, only four colours can appear. |
| Ui.IndiceColorAgente | simPy/ui.py:332 | Python's floored `%` always gives a palette index; ids 1–5 map to indices 0–4. |
| Ui.ColorAgentePeriodico | simPy/ui.py:332 | Agents five ids apart share a colour. |
| Ui.SobrescribirFuera | simPy/ui.py:467-468 | A cell no state reports keeps its entry. |
| Ui.SobrescribirUltimo | simPy/ui.py:467-468 | A reported cell holds the last state reported for it. |
| Ui.TiposTrasAgregar | simPy/ui.py:473-490 | Appending one of the three known kinds keeps every logged kind known. |
| Ui.Cuenta | simPy/ui.py:545-547 | A tally never exceeds the log size. |
| Ui.TotalEsSuma | simPy/ui.py:544-547 | The summary's total equals the sum of its three tallies. |
| Ui.AgregadosSonLosUltimos | simPy/ui.py:74-86 | Appending events one by one keeps the most recent `max` of them, in arrival order. |
| Ui.RegistroActividad.constructor | simPy/ui.py:73-75 | Empty log with the given bound, 100 by default. |
| Ui.RegistroActividad.AgregarEvento | simPy/ui.py:77-86 | The new log is the last `max` events of the old log plus the new event. |
| Ui.AgenteUI.constructor | simPy/ui.py:104-125 | Empty map and positions, no metrics, an empty log of 1000, and the display flag up. The grid defaults to 10 × 10. |
| Ui.AgenteUI.Actualizar | simPy/ui.py:462-490 | All states are stored and the metrics replaced. For a non-empty list, the first state's harvest event is logged, then `requiere_tratamiento` raises `AttributeError`. |
| Ui.AgenteUI.ActualizarPosicionAgente | simPy/ui.py:492-494 | Only that agent's position changes. |
| Ui.AgenteUI.Tallies | simPy/ui.py:543-547 | The counts these lines compute from the log: one count per event kind, with the total equal to their sum. The summary as written never gets this far (see `Ui.TalliesInalcanzables`). |
| Ui.PrimerFaltante | simPy/ui.py:518-532 | The first attribute read that the record lacks is the one that raises: it is missing and every read before it exists. No attribute raises iff all exist. |
| Ui.Resumen | simPy/ui.py:504-553 | Without metrics, only the frame is printed. With metrics, an attribute the record lacks raises `AttributeError`. The event tallies are reached iff every attribute read exists, and they then equal the log's counts. |
| Ui.CoberturaFalta | simPy/ui.py:518-525 | The first four attributes read exist in `MetricasSistema` (simPy/manager.py:76-82); `porcentaje_analizado`, the fifth, does not. |
| Ui.ResumenComoEscrito | simPy/ui.py:517-525 | With the coordinator's record the summary is `SinMetricas` when no metrics arrived, and otherwise `AttributeError` on `porcentaje_analizado`. |
| Ui.TalliesInalcanzables | simPy/ui.py:517-553 | No run of the summary, with or without metrics, prints the event tallies. |
| Ui.TalliesSuman | simPy/ui.py:544-553 | A record with every attribute the summary reads would reach tallies whose total is the sum of the three kinds. |
| Ui.AgenteUI.Detener | simPy/ui.py:496-500 | The display flag drops. |
| Ui.AgenteUI.MostrarResumenFinal | simPy/ui.py:504-555 | The display flag drops, then the summary runs over the stored metrics. With none it is `SinMetricas`; with metrics it ends in `AttributeError` on `porcentaje_analizado`. |
| ControlUi.ColorAlerta | Invernadero2/Assets/Scripts/Agentes/AgenteUI.cs:77-84 | The first keyword group the message contains decides: red for plague, yellow for harvest, green for unripe; white otherwise. Stated both ways. |
| ControlUi.AlertaPlagaRoja | Invernadero2/Assets/Scripts/Agentes/AgenteUI.cs:53-78 | Both plague messages come out red. |
| ControlUi.AlertaCosechaAmarilla | Invernadero2/Assets/Scripts/Agentes/AgenteUI.cs:79-80 | The manager's harvest alert comes out yellow. |
| ControlUi.AlertaVerdeVerde | Invernadero2/Assets/Scripts/Agentes/AgenteUI.cs:81-82 | The manager's unripe alert comes out green. |
| ControlUi.SoloCosechandoCuenta | Invernadero2/Assets/Scripts/Agentes/AgenteUI.cs:95-96 | Of the drone's three action texts, only "Cosechando" contains the keyword. |
| ControlUi.AgregarEsUltimos | Invernadero2/Assets/Scripts/Agentes/AgenteUI.cs:99-108 | From a history within bounds, one step keeps the last `max` lines, and the newest is last. |
| ControlUi.HistorialFifo | Invernadero2/Assets/Scripts/Agentes/AgenteUI.cs:99-108 | Any number of additions keeps exactly the most recent `max` lines, oldest first. |
| ControlUi.AlertaCuentaYRegistra | Invernadero2/Assets/Scripts/Agentes/AgenteUI.cs:62-88 | An alert bumps only the alert count, and its line becomes the newest history entry. |
| ControlUi.AccionesDelDron | Invernadero2/Assets/Scripts/Agentes/AgenteUI.cs:90-97 | Harvesting raises the harvest count; pesticide and "too green" do not. |
| ControlUi.UIController.constructor | Invernadero2/Assets/Scripts/Agentes/AgenteUI.cs:12-18 | Zero counters, empty history, no colour set; the history bound defaults to the inspector's 10. |
| ControlUi.UIController.MostrarAnalisis | Invernadero2/Assets/Scripts/Agentes/AgenteUI.cs:25-44 | Only the analysis count grows. |
| ControlUi.UIController.RegistrarAlertaPlaga | Invernadero2/Assets/Scripts/Agentes/AgenteUI.cs:53-56 | Acts as the three-argument overload with the plague message. |
| ControlUi.UIController.RegistrarAlerta | Invernadero2/Assets/Scripts/Agentes/AgenteUI.cs:62-88 | The new state is `TrasAlerta`: one more alert, the colour if the panel exists, and the history line. |
| ControlUi.UIController.RegistrarAccion | Invernadero2/Assets/Scripts/Agentes/AgenteUI.cs:90-97 | The new state is `TrasAccion`: a history line, and the harvest count when the action says so. |
| ControlUi.UIController.AgregarHistorial | Invernadero2/Assets/Scripts/Agentes/AgenteUI.cs:99-108 | Enqueues the stamped line and drops one line when over the limit. |
| Planta.ColorPara | Invernadero2/Assets/Scripts/Plantas/PlantaData.cs:50-56 | The sick colour iff the plant has a plague. |
| Planta.Marcar | Invernadero2/Assets/Scripts/Plantas/PlantaData.cs:38-56 | Sets the flag and repaints when a renderer exists; every other field is kept. |
| Planta.MarcarIdempotente | Invernadero2/Assets/Scripts/Plantas/PlantaData.cs:38-48 | Marking twice is marking once. |
| Planta.UltimaMarcaGana | Invernadero2/Assets/Scripts/Plantas/PlantaData.cs:38-48 | Of two marks, the later one decides. |
| Planta.ColorDelata | Invernadero2/Assets/Scripts/Plantas/PlantaData.cs:50-56 | With a renderer and two distinct colours, the painted colour tells the flag, both ways. |
| Planta.PlantaData.constructor | Invernadero2/Assets/Scripts/Plantas/PlantaData.cs:5-21 | The inspector defaults. |
| Planta.PlantaData.ActualizarColor | Invernadero2/Assets/Scripts/Plantas/PlantaData.cs:50-56 | Paints `ColorPara` when a renderer exists; otherwise nothing changes. |
| Planta.PlantaData.MarcarComoEnferma | Invernadero2/Assets/Scripts/Plantas/PlantaData.cs:38-42 | The new state is `Marcar(·, true)`. |
| Planta.PlantaData.MarcarComoSana | Invernadero2/Assets/Scripts/Plantas/PlantaData.cs:44-48 | The new state is `Marcar(·, false)`. |
| Dron.SurcoDeId | Invernadero2/Assets/Scripts/Agentes/AgenteFisico.cs:71-72 | The row index is `id mod 4` for a non-negative id. It is in range exactly when the id is non-negative or a multiple of 4. |
| Dron.ObtenerEstadoMadurez | Invernadero2/Assets/Scripts/Agentes/AgenteFisico.cs:301-306 | Three buckets with no gap or overlap, each stated as an if-and-only-if. |
| Dron.AccionesPara | Invernadero2/Assets/Scripts/Agentes/AgenteFisico.cs:246-299 | Pesticide iff plague, and it comes first. Harvest iff maturity ≥ threshold. "Too green" iff below the threshold and below 5. Never both harvest and "too green". |
| Dron.ComoAvisos | Invernadero2/Assets/Scripts/Agentes/AgenteFisico.cs:246-299 | One action notice per action, in order. |
| Dron.AvisosAnalisis | Invernadero2/Assets/Scripts/Agentes/AgenteFisico.cs:191-231 | With a plague: the alert, then the analysis. With none: the analysis first. An alert appears iff there is a plague. |
| Dron.AgenteFisico.constructor | Invernadero2/Assets/Scripts/Agentes/AgenteFisico.cs:17-35 | Empty inactive route, zero statistics. |
| Dron.AgenteFisico.AsignarRuta | Invernadero2/Assets/Scripts/Agentes/AgenteFisico.cs:66-116 | Route and id are stored. The row is chosen by C#'s `%`, and a negative id not divisible by 4 fails the array access before the route is activated. |
| Dron.AgenteFisico.EjecutarAccionesPostAnalisis | Invernadero2/Assets/Scripts/Agentes/AgenteFisico.cs:246-299 | The notices are `AccionesPara`; a plague is cured; the harvest count follows maturity. |
| Dron.AgenteFisico.AnalizarPlantaCompleta | Invernadero2/Assets/Scripts/Agentes/AgenteFisico.cs:171-244 | The notices are `AvisosAnalisis`. The plant ends analysed and sane, the index advances, and the counters follow it. |
| Dron.AgenteFisico.Update | Invernadero2/Assets/Scripts/Agentes/AgenteFisico.cs:118-151 | Idle: nothing changes and nothing is sent. Finish: the route deactivates and one mission report carries the unchanged counters. Arrival: the plant is analysed, with the notices, plant state and counters that `AnalizarPlantaCompleta` gives, and no other plant changes. No arrival: nothing changes. The index never passes the route end. |
| Mision.Rango | Invernadero2/Assets/Scripts/Agentes/AgenteManager.cs:71 | The scene's plant list `0 … n-1`, without repeats. |
| Mision.Cupo | Invernadero2/Assets/Scripts/Agentes/AgenteManager.cs:212 | The least quota `q` with `d × q ≥ n`. |
| Mision.IndiceMasCercano | Invernadero2/Assets/Scripts/Agentes/AgenteManager.cs:227-229 | The first among the nearest. |
| Mision.Quitar | Invernadero2/Assets/Scripts/Agentes/AgenteManager.cs:232 | Removing at an index shifts the tail. |
| Mision.QuitarDistintos | Invernadero2/Assets/Scripts/Agentes/AgenteManager.cs:232 | Removing from a list without repeats drops exactly that element. |
| Mision.Voraz | Invernadero2/Assets/Scripts/Agentes/AgenteManager.cs:221-234 | The greedy route takes `min(quota, available)` plants, and the route and the rest together hold every available plant. |
| Mision.VorazReparte | Invernadero2/Assets/Scripts/Agentes/AgenteManager.cs:221-234 | Route and rest have no repeats, share nothing and together hold exactly the available plants. |
| Mision.VorazAlMasCercano | Invernadero2/Assets/Scripts/Agentes/AgenteManager.cs:227-233 | The first stop is an available plant at least as near to the drone as every other one. |
| Mision.Insertar | Invernadero2/Assets/Scripts/Agentes/AgenteManager.cs:183-185 | Insertion keeps the list sorted by distance and adds exactly one element. |
| Mision.OrdenarPorLejania | Invernadero2/Assets/Scripts/Agentes/AgenteManager.cs:183-185 | `OrderBy(distance)` is sorted, and a permutation of its input. |
| Mision.PrimerDueno | Invernadero2/Assets/Scripts/Agentes/AgenteManager.cs:191-197 | The first route, in drone order, that holds the plant; none iff no route does. |
| Mision.PrimerDuenoPrefijo | Invernadero2/Assets/Scripts/Agentes/AgenteManager.cs:191-197 | The owner among the first routes is unchanged by a longer list of routes. |
| Mision.PrimerDuenoAnexo | Invernadero2/Assets/Scripts/Agentes/AgenteManager.cs:191-197 | A new route only claims plants nobody owned before. |
| Mision.ReclamadasPaso | Invernadero2/Assets/Scripts/Agentes/AgenteManager.cs:191-244 | Registering the next route keeps "each plant belongs to the first route holding it". |
| Mision.RutasPorTags | Invernadero2/Assets/Scripts/Agentes/AgenteManager.cs:157-200 | A missing drone gets no route. A present one gets its tagged plants sorted by distance. |
| Mision.RutaPorTagEsPermutacion | Invernadero2/Assets/Scripts/Agentes/AgenteManager.cs:176-188 | A tag route is a sorted permutation of the tagged plants. |
| Mision.Reparto | Invernadero2/Assets/Scripts/Agentes/AgenteManager.cs:208-250 | The proximity rule yields one route per drone processed so far. |
| Mision.RepartoPaso | Invernadero2/Assets/Scripts/Agentes/AgenteManager.cs:225-234 | One step keeps routes and pool free of repeats and overlap, with the same plants. |
| Mision.RepartoSinRepetir | Invernadero2/Assets/Scripts/Agentes/AgenteManager.cs:208-250 | No plant is routed twice. Routes plus pool are always exactly the plant list. |
| Mision.RepartoLlena | Invernadero2/Assets/Scripts/Agentes/AgenteManager.cs:212-234 | With every drone present, each full quota drains the pool by exactly that much. |
| Mision.RepartoCompleto | Invernadero2/Assets/Scripts/Agentes/AgenteManager.cs:208-250 | With every drone present, the ceiling quota routes every plant. |
| Mision.Remover | Invernadero2/Assets/Scripts/Agentes/AgenteManager.cs:232 | `List.Remove` drops one occurrence if there is one, and otherwise changes nothing. |
| Mision.RemoverEnPrimera | Invernadero2/Assets/Scripts/Agentes/AgenteManager.cs:227-232 | Removing the nearest plant by value removes it at its own index. |
| Mision.ReporteDron.constructor | Invernadero2/Assets/Scripts/Agentes/AgenteManager.cs:413-421 | Id stored, zero counters, not complete. |
| Mision.ReporteDron.RegistrarPlaga | Invernadero2/Assets/Scripts/Agentes/AgenteManager.cs:428-431 | One more plague. |
| Mision.ReporteDron.RegistrarAccion | Invernadero2/Assets/Scripts/Agentes/AgenteManager.cs:433-436 | One more action. |
| Mision.ReporteDron.MisionCompleta | Invernadero2/Assets/Scripts/Agentes/AgenteManager.cs:438-444 | The drone's figures overwrite the counters, and the mission is complete. |
| Mision.AgenteManager.constructor | Invernadero2/Assets/Scripts/Agentes/AgenteManager.cs:10-29 | No plants, no claims, no reports, zero totals, not initialised. |
| Mision.AgenteManager.InicializarReportes | Invernadero2/Assets/Scripts/Agentes/AgenteManager.cs:98-109 | A fresh report for each non-null drone index. No other key appears, and reports of null drones are kept. |
| Mision.AgenteManager.RegistrarRuta | Invernadero2/Assets/Scripts/Agentes/AgenteManager.cs:191-197 | Old claims are kept, and unclaimed route plants are claimed for this drone. |
| Mision.AgenteManager.AsignarPlantasPorTags | Invernadero2/Assets/Scripts/Agentes/AgenteManager.cs:153-203 | The routes are `RutasPorTags`; claims go to the first route holding each plant. |
| Mision.AgenteManager.TomarCercanas | Invernadero2/Assets/Scripts/Agentes/AgenteManager.cs:221-234 | The inner loop computes exactly `Voraz`. |
| Mision.AgenteManager.AsignarPlantasPorProximidad | Invernadero2/Assets/Scripts/Agentes/AgenteManager.cs:208-250 | The routes are `Reparto` with the ceiling quota; claims go to the first route. |
| Mision.AgenteManager.InicializarMision | Invernadero2/Assets/Scripts/Agentes/AgenteManager.cs:67-126 | No plants: it returns before the UI lookup, so `hayUi` is unchanged. No drones: it returns after the lookup. Otherwise the reports are set up, routes are assigned by the chosen rule, and the mission is initialised. In every case report keys are only added for non-null drones, and the reports of null drones are kept. |
| Mision.AgenteManager.NotificarAnalisis | Invernadero2/Assets/Scripts/Agentes/AgenteManager.cs:256-288 | The analysis is counted (and a plague counted again), and the UI calls are `AvisosUiAnalisis`. Nothing happens before initialisation or for a null plant. |
| Mision.AgenteManager.NotificarAlerta | Invernadero2/Assets/Scripts/Agentes/AgenteManager.cs:290-303 | The drone's report counts the plague and keeps its other figures; the UI gets the two-argument alert. |
| Mision.AgenteManager.NotificarAccion | Invernadero2/Assets/Scripts/Agentes/AgenteManager.cs:305-318 | The drone's report counts the action and keeps its other figures; the UI logs it. |
| Mision.AgenteManager.NotificarMisionCompleta | Invernadero2/Assets/Scripts/Agentes/AgenteManager.cs:320-340 | The report's three figures are overwritten and its action count kept, harvests are added to the total, and the final report appears iff every report is complete. |
| Mision.AvisosUiAnalisis | Invernadero2/Assets/Scripts/Agentes/AgenteManager.cs:267-287 | No UI: no calls. With a UI: the analysis is shown first, and each of the three alerts appears iff its condition holds. |
| Tablero.IdaYVuelta | Invernadero2/Assets/Scripts/DashboardManager.cs:221-227 | For any list index `i` (below 2^31), `(i / 5, i % 5)` maps back to plant `i` with nothing wrapping. |
| Tablero.IndiceEnvuelto | Invernadero2/Assets/Scripts/DashboardManager.cs:227-230 | Row 858993460, column 0 gives index 4 in wrapping `int` arithmetic, though the exact product is not 4: such a report paints plant 4. |
| Tablero.PorcentajeNuncaCien | Invernadero2/Assets/Scripts/DashboardManager.cs:41-46 | A remainder by 100 is never 100, so the "mission complete" branch is dead. |
| Tablero.PorcentajeSuave | Invernadero2/Assets/Scripts/DashboardManager.cs:40-41 | The smoothed percentage stays in [0, 100). |
| Tablero.Mezcla | Invernadero2/Assets/Scripts/DashboardManager.cs:98 | `Color.Lerp`'s factor is clamped to [0, 1]. |
| Tablero.AlertaRezagada | Invernadero2/Assets/Scripts/DashboardManager.cs:64-77 | With a threshold of 0.5, a risk of 0.6 neither refreshes nor clears an existing alert. |
| Tablero.SinRezagoPorDefecto | Invernadero2/Assets/Scripts/DashboardManager.cs:64-77 | With the default threshold 0.7 and a prefab, a plant has an alert after evaluation exactly when its risk is above 0.7. |
| Tablero.DashboardManager.constructor | Invernadero2/Assets/Scripts/DashboardManager.cs:15-34 | The initial paint, no alerts or timers, time 0, simulation running; the threshold defaults to the inspector's 0.7. |
| Tablero.DashboardManager.ActualizarRiesgoPlanta | Invernadero2/Assets/Scripts/DashboardManager.cs:93-101 | Paints plant `i` with the clamped factor; a negative index raises and changes nothing. |
| Tablero.DashboardManager.CrearAlertaVisual | Invernadero2/Assets/Scripts/DashboardManager.cs:117-186 | Without a prefab nothing changes. Otherwise an existing alert is reused with a fresh timer, or a new alert is created. |
| Tablero.DashboardManager.VencerAlerta | Invernadero2/Assets/Scripts/DashboardManager.cs:188-201 | The alert and its timer are removed. |
| Tablero.DashboardManager.ClearAlertForPlant | Invernadero2/Assets/Scripts/DashboardManager.cs:204-217 | The plant's alert and timer are removed; nothing else changes. |
| Tablero.DashboardManager.ReportarEstadoCultivo | Invernadero2/Assets/Scripts/DashboardManager.cs:221-246 | The index is `fila * 5 + columna` in wrapping `int` arithmetic. In range: paint, plus an alert above 0.7 with a prefab. That alert gets a fresh timer at the next serial, and the serial advances; otherwise alerts, timers and serial are kept. Out of range: nothing changes. |
| Tablero.DashboardManager.EvaluarPlanta | Invernadero2/Assets/Scripts/DashboardManager.cs:56-77 | One plant of the space-key loop: painted, then alerted or cleared by the two thresholds. Its timer is restarted with the next serial exactly when it is alerted, kept when reported without an alert, and gone when cleared. The serial advances by one exactly on a restart. Other plants' alerts and timers are untouched. |
| Tablero.DashboardManager.EvaluarPlantas | Invernadero2/Assets/Scripts/DashboardManager.cs:56-78 | Every plant is painted with its risk, and its alert follows the rule. Plant `j`'s restarted timer carries the old serial plus the number of restarts before `j`. The serial advances by the total number of restarts. |
| Tablero.DashboardManager.Update | Invernadero2/Assets/Scripts/DashboardManager.cs:36-81 | The time advances while the simulation runs, and the simulation never stops. The space key counts a move and evaluates every plant, with the alerts, timers and serial that `EvaluarPlantas` gives. Without it, paint, alerts, timers and serial are unchanged. |
| LimpiarEmojis.ReemplazarSinOcurrencia | simPy/limpiar_emojis.py:77 | `str.replace` leaves text without the key unchanged. |
| LimpiarEmojis.ReemplazarQuitaCaracter | simPy/limpiar_emojis.py:96 | Replacing a character by text without it leaves none of it. |
| LimpiarEmojis.AplicarPartes | simPy/limpiar_emojis.py:76-96 | A table's passes split at any point. |
| LimpiarEmojis.AplicarSinClaves | simPy/limpiar_emojis.py:76-77 | A table changes nothing in text with none of its keys. |
| LimpiarEmojis.SinClavesSinCambios | simPy/limpiar_emojis.py:73-99 | Content with no key of either table comes out unchanged. |
| LimpiarEmojis.AcentosMuertos | simPy/limpiar_emojis.py:80-96 | The merged 'Ã' entry removes every 'Ã', so the three later accent entries never match. |
| LimpiarEmojis.PasadaMuerta | simPy/limpiar_emojis.py:80-96 | A pass that deletes every occurrence of one character makes every later pass whose key contains it a no-op. |
| LimpiarEmojis.AplicarTabla | simPy/limpiar_emojis.py:76-77 | The replacement loop computes `Aplicar`. |
| LimpiarEmojis.LimpiarContenido | simPy/limpiar_emojis.py:75-96 | The two loops compute `Transformar`. |
| LimpiarEmojis.LimpiarArchivo | simPy/limpiar_emojis.py:67-110 | True iff the file was read and its content changed, and exactly then the transformed content is written. |
| LimpiarEmojis.LimpioNoCambia | simPy/limpiar_emojis.py:98-106 | A clean readable file is reported unchanged. |
| LimpiarEmojis.CuentaCambios | simPy/limpiar_emojis.py:123-127 | The count of changed files never exceeds the list. |
| LimpiarEmojis.NadaQueLimpiar | simPy/limpiar_emojis.py:123-127 | With nothing to clean, the count is zero. |
| LimpiarEmojis.LimpiarArchivos | simPy/limpiar_emojis.py:123-127 | The loop's count is `CuentaCambios`, and exactly the changed files are written, with their cleaned content. |
| LimpiarEmojis.Script | simPy/limpiar_emojis.py:112-129 | The same, over the script's five files and its two tables. |

## Left out

- Threads, locks, `Event.wait` blocking and `time.sleep` are left out. A pause is modelled as a checkpoint whose outcome is an input, and interleavings are not modelled.
- The clock, `datetime.now`, `Time.deltaTime` and every random draw are parameters.
- Console output, `Debug.Log`, rendering, colours of materials, text panels, camera placement, rotations and Pygame drawing are left out. So are `ejecutar_loop_pygame`, `mostrar_estado_supervision` and `generar_reporte_final`: they only print. `mostrar_resumen_final` is modelled by its control flow, its `detener` call and its outcome; its printed lines, `time.sleep`, the terminal clear and `pygame.quit()` are not.
- `iniciar_jornada` is not modelled: it only starts threads.
- `main.py` is not part of this model.
- Unity coroutines collapse into one step each, so the drone's `analizando` flag is not observed mid-analysis, and the delayed start of the mission is a plain call.
- `AgenteManager.Instance == null` paths, `Awake`/`OnDestroy` singleton handling and `AjustarRotacionesIniciales` are left out. They concern the scene, not the bookkeeping.
- Plants and drones are identified by their index in the scene lists, and positions come through `Geometria`. Row geometry (`CalcularDestinoSurco`) and motion are left out.
- The plant predicates the manager calls (`EstaListaParaCosechar`, `EstaMuyVerde`, `TienePlagaActiva`, `TieneAlertasCriticas`, `saludGeneral`) are not defined in `PlantaData.cs`. They are the input `Observacion`.
- `MostrarEstadisticasGlobales` and `MostrarReporteFinal` only print. The model records only whether the final report is shown.
- `ReporteDron.RegistrarAnalisis` has an empty body and is modelled as doing nothing.
- `PlantaData.Start` is left out: it names the plant with a random number and paints it.
- `SimularAlertaAleatoria` and `ActualizarMetricas` are left out: a random plant, and text formatting.
- Mision.OrdenarPorLejania: states sorted-by-distance and permutation, but not the stability of LINQ's `OrderBy`.
- Mision.Cupo: `Mathf.CeilToInt` of a float division is modelled as the exact integer ceiling; float rounding is not modelled.
- LimpiarEmojis.LimpiarArchivos: each file is read from the disk as it was before the loop. In the source, a name listed twice would see its own earlier write. The script's five names are distinct, so `Script` is unaffected.
- Ui.AgenteUI.Tallies: states the counts that simPy/ui.py:544-547 compute, which the summary as written never reaches. `Ui.TalliesInalcanzables` proves that no run prints them.
- Counters are unbounded integers: C# `int` overflow after 2^31 increments is not modelled for the drone's, report's, manager's, UI controller's and dashboard's counters. Plant and drone indices are list positions, so they fit in an `int`. The one `int` product of the core, the dashboard's `fila * 5 + columna`, is modelled with wrapping.
- Distances, risks, battery and maturity are real numbers, not 32-bit floats. `(int)` of a non-negative float is modelled as its floor.
- Formatted messages keep only their structure. Floats are not formatted and timestamps are given strings.
- Tablero.DashboardManager.CrearAlertaVisual: Unity's "destroyed object equals null" case for an alert still in the table is not modelled. The model removes an alert from the table whenever it is destroyed, so that case cannot arise.
- Ui.RegistroActividad.constructor: a negative `max_eventos` (for which `deque` raises `ValueError`) is excluded by the `nat` bound.
- Ui.AgenteUI.Actualizar: as written, the `tratamiento` and `alerta` events are unreachable, because the attribute error comes first. The model does not describe what a corrected `EstadoCelda` would log.
- LimpiarEmojis.LimpiarArchivo: a write that fails part-way through (a truncated file) is modelled as no write. Os-level errors other than "cannot read" and "cannot write" are not distinguished.
- The harvester's `cb_datos` and `cb_cosecha` callbacks are not run inside the model. Their exceptions are an input, and the coordinator's own handling of a reading is modelled separately in `Coordinador.Manager.RecibirDatos`.
